/** The salt daemons (`SaltDaemon`, `SaltMaster`, `SaltMinion` in
    src/saltbox/salt_helpers.py): a `running` flag driven by `start`, `stop`
    and `wait`, with the process id read from the daemon's pid file.  The
    operating system is a set of parameters: `spawn` maps an argument vector
    to the exit code of `subprocess.call` or the exception it raises, `kill`
    maps a pid and a signal to the exception `os.kill` raises, if any, and
    `probe` gives the exception, if any, that the k-th liveness probe
    `os.kill(pid, 0)` of `wait` raises. */
module Daemons {
  import opened Common
  import opened Paths
  import opened Disk
  import opened BoxConfig
  import Registries

  /** The signal `stop` sends (2, which is SIGINT on POSIX systems). */
  const SighupSignal: int := 2
  /** The null signal: `os.kill(pid, 0)` only checks that `pid` exists. */
  const StatusSignal: int := 0

  datatype Kind = Master | Minion

  function Exe(kind: Kind): string
  {
    match kind
    case Master => "salt-master"
    case Minion => "salt-minion"
  }

  function PidFileName(kind: Kind): string
  {
    match kind
    case Master => "salt-master.pid"
    case Minion => "salt-minion.pid"
  }

  /** Each daemon's pid file is named after its program, and the master and
      the minion share neither, so their pid paths never collide. */
  lemma DaemonNames(k1: Kind, k2: Kind)
    ensures PidFileName(k1) == Exe(k1) + ".pid"
    ensures k1 != k2 ==> Exe(k1) != Exe(k2) && PidFileName(k1) != PidFileName(k2)
    ensures !IsAbsolute(Exe(k1)) && !IsAbsolute(PidFileName(k1))
  {
    if k1 != k2 {
      assert Exe(k1)[6] != Exe(k2)[6];
    }
  }

  // ---------------------------------------------------------------------
  // `int(text)` and its inverse

  predicate IsDigit(c: char)
  {
    '0' <= c <= '9'
  }

  /** The digit strings `int()` accepts: decimal digits, with single
      underscores allowed between two digits. */
  predicate DigitText(s: string)
  {
    s != [] && IsDigit(s[0]) && IsDigit(s[|s| - 1]) &&
    forall i :: 0 <= i < |s| - 1 ==> IsDigit(s[i]) || (s[i] == '_' && IsDigit(s[i + 1]))
  }

  /** The value of a digit string, underscores skipped. */
  function DigitsValue(s: string): nat
  {
    if s == [] then 0
    else if IsDigit(s[|s| - 1]) then DigitsValue(s[..|s| - 1]) * 10 + (s[|s| - 1] as int - '0' as int)
    else DigitsValue(s[..|s| - 1])
  }

  /** What `int()` makes of text with no surrounding whitespace: an
      optional sign followed by a digit string, read as the signed value of
      the digits; `None` where Python raises `ValueError`. */
  predicate ReadsAs(t: string, r: Option<int>)
  {
    (r.Some? <==> DigitText(t) || (t != [] && (t[0] == '-' || t[0] == '+') && DigitText(t[1..]))) &&
    (DigitText(t) ==> r == Some(DigitsValue(t))) &&
    (t != [] && t[0] == '-' && DigitText(t[1..]) ==> r == Some(-(DigitsValue(t[1..]) as int))) &&
    (t != [] && t[0] == '+' && DigitText(t[1..]) ==> r == Some(DigitsValue(t[1..])))
  }

  /** `int(text)` on a string: surrounding whitespace is ignored, then an
      optional sign and a digit string. */
  function ParseInt(text: string): (r: Option<int>)
    ensures ReadsAs(Registries.Strip(text), r)
  {
    ParseSigned(Registries.Strip(text))
  }

  /** An optional sign followed by a digit string. */
  function ParseSigned(t: string): (r: Option<int>)
    ensures ReadsAs(t, r)
  {
    if t != [] && (t[0] == '-' || t[0] == '+') then
      var v: int := DigitsValue(t[1..]);
      if DigitText(t[1..]) then Some(if t[0] == '-' then -v else v) else None
    else if DigitText(t) then Some(DigitsValue(t))
    else None
  }

  function DigitChar(d: nat): char
    requires d < 10
  {
    ('0' as int + d) as char
  }

  /** The decimal text of a natural number, without leading zeros. */
  function NatText(n: nat): (s: string)
    ensures s != [] && forall i :: 0 <= i < |s| ==> IsDigit(s[i])
    decreases n
  {
    if n < 10 then [DigitChar(n)] else NatText(n / 10) + [DigitChar(n % 10)]
  }

  /** `str(n)`, the text a process writes into its pid file. */
  function Decimal(n: int): string
  {
    if n < 0 then "-" + NatText(-n) else NatText(n)
  }

  lemma {:induction false} NatTextValue(n: nat)
    ensures DigitText(NatText(n)) && DigitsValue(NatText(n)) == n
    decreases n
  {
    var s := NatText(n);
    if n >= 10 {
      NatTextValue(n / 10);
      assert s[..|s| - 1] == NatText(n / 10);
    }
  }

  /** `strip()` removes a final newline and keeps text that has no
      whitespace at either end. */
  lemma StripNewline(s: string)
    requires s != [] && !Registries.IsSpace(s[0]) && !Registries.IsSpace(s[|s| - 1])
    ensures Registries.Strip(s + "\n") == s
  {
    var t := s + "\n";
    assert Registries.TrimStart(t) == t;
    assert t[..|t| - 1] == s;
    assert Registries.TrimEnd(t) == Registries.TrimEnd(s);
  }

  lemma DecimalStrips(n: int)
    ensures Registries.Strip(Decimal(n)) == Decimal(n)
    ensures Registries.Strip(Decimal(n) + "\n") == Decimal(n)
  {
    var s := Decimal(n);
    var digits := NatText(if n < 0 then -n else n);
    assert s[|s| - 1] == digits[|digits| - 1];
    assert IsDigit(s[|s| - 1]) && (s[0] == '-' || IsDigit(s[0]));
    StripNewline(s);
  }

  /** A pid file written as `str(pid)`, with or without a final newline,
      reads back as that pid. */
  lemma ParseDecimal(n: int)
    ensures ParseInt(Decimal(n)) == Some(n)
    ensures ParseInt(Decimal(n) + "\n") == Some(n)
  {
    DecimalStrips(n);
    var m := if n < 0 then -n else n;
    NatTextValue(m);
    var s := Decimal(n);
    if n < 0 {
      assert s[1..] == NatText(m);
    } else {
      assert s[0] != '-' && s[0] != '+';
    }
  }

  // ---------------------------------------------------------------------
  // `start`

  /** The command `start` spawns. */
  function StartArgv(exe: string, configPath: Path, daemon: bool): (argv: seq<string>)
    ensures |argv| >= 5 && argv[..5] == [exe, "--config-dir", configPath, "--log-level", SaltLoglevel]
    ensures daemon <==> |argv| == 6 && argv[5] == "--daemon"
    ensures |argv| <= 6
  {
    var args := [exe, "--config-dir", configPath, "--log-level", "debug"];
    if daemon then args + ["--daemon"] else args
  }

  // ---------------------------------------------------------------------
  // `wait`

  /** The first probe, from `from` on, at which `os.kill(pid, 0)` raises. */
  function FirstRaiseFrom(probe: nat -> Option<Error>, from: nat, deadline: nat): (k: nat)
    requires from <= deadline && probe(deadline).Some?
    ensures from <= k <= deadline && probe(k).Some?
    ensures forall j :: from <= j < k ==> probe(j).None?
    decreases deadline - from
  {
    if probe(from).Some? then from else FirstRaiseFrom(probe, from + 1, deadline)
  }

  function FirstRaise(probe: nat -> Option<Error>, deadline: nat): nat
    requires probe(deadline).Some?
  {
    FirstRaiseFrom(probe, 0, deadline)
  }

  /** The probes of `wait` up to `n`, all but the last returning `None` and
      the last one raising. */
  predicate PolledUntilRaise(probe: nat -> Option<Error>, n: nat)
  {
    n > 0 && probe(n - 1).Some? && forall j: nat :: j + 1 < n ==> probe(j).None?
  }

  /** What `wait` leaves behind: the exception, the flag, and the number
      of liveness probes it made. */
  datatype WaitEnd = WaitEnd(err: Option<Error>, running: bool, probes: nat)

  /** `wait` as written: `os.kill(pid, 0)` returns `None` while the process
      exists and may be signalled, so `not os.kill(...)` holds and the loop
      polls on; the first probe that raises (`ProcessLookupError` once the
      process is gone, `PermissionError` for a process of another user)
      leaves the loop and the method before `_running = False`. */
  function WaitAsWritten(running: bool, pid: Result<Option<int>>, probe: nat -> Option<Error>, deadline: nat): (w: WaitEnd)
    requires probe(deadline).Some?
    ensures w.running == running
    ensures running ==> w.err.Some?
    ensures w.probes > 0 <==> running && pid.Ok? && pid.value.Some?
    ensures w.probes > 0 ==> PolledUntilRaise(probe, w.probes) && w.err == probe(w.probes - 1)
  {
    if !running then WaitEnd(None, false, 0)
    else if pid.Err? then WaitEnd(Some(pid.error), true, 0)
    else if pid.value.None? then WaitEnd(Some(AssertionError("")), true, 0)
    else
      var k := FirstRaise(probe, deadline);
      WaitEnd(probe(k), true, k + 1)
  }

  /** `wait` as evidently intended: poll until the process is gone, then
      clear the flag; any other exception of the probe still propagates. */
  function WaitCorrected(running: bool, pid: Result<Option<int>>, probe: nat -> Option<Error>, deadline: nat): (w: WaitEnd)
    requires probe(deadline).Some?
    ensures w.err.None? <==> !w.running
    ensures !running ==> w == WaitEnd(None, false, 0)
    ensures w.probes > 0 <==> running && pid.Ok? && pid.value.Some?
    ensures w.probes > 0 ==> PolledUntilRaise(probe, w.probes)
    ensures w.probes > 0 ==> (!w.running <==> probe(w.probes - 1).value.ProcessLookupError?)
    ensures w.probes > 0 && w.running ==> w.err == probe(w.probes - 1)
  {
    if !running then WaitEnd(None, false, 0)
    else if pid.Err? then WaitEnd(Some(pid.error), true, 0)
    else if pid.value.None? then WaitEnd(Some(AssertionError("")), true, 0)
    else
      var k := FirstRaise(probe, deadline);
      if probe(k).value.ProcessLookupError? then WaitEnd(None, false, k + 1)
      else WaitEnd(probe(k), true, k + 1)
  }

  /** A daemon with pid 42 that exits after three probes: the written
      `wait` raises `ProcessLookupError(42)` with the flag still set, where
      the corrected one returns with the flag cleared. */
  lemma WaitCounterexample()
    ensures var probe := (k: nat) => if k < 3 then None else Some(ProcessLookupError(42));
            WaitAsWritten(true, Ok(Some(42)), probe, 3) == WaitEnd(Some(ProcessLookupError(42)), true, 4) &&
            WaitCorrected(true, Ok(Some(42)), probe, 3) == WaitEnd(None, false, 4)
  {
    var probe := (k: nat) => if k < 3 then None else Some(ProcessLookupError(42));
    assert FirstRaiseFrom(probe, 0, 3) == 3 by {
      assert probe(0).None? && probe(1).None? && probe(2).None? && probe(3).Some?;
    }
  }

  /** The corrected `wait` on a running daemon with a readable pid returns
      normally, stopped, when polling ends because the process is gone; it
      agrees with the written one on every other input, a probe refused
      with `PermissionError` included. */
  lemma WaitCorrectedStops(running: bool, pid: Result<Option<int>>, probe: nat -> Option<Error>, deadline: nat)
    requires probe(deadline).Some?
    ensures var w := WaitCorrected(running, pid, probe, deadline);
            running && pid.Ok? && pid.value.Some? && probe(FirstRaise(probe, deadline)).value.ProcessLookupError? ==>
              w.err.None? && !w.running && PolledUntilRaise(probe, w.probes)
    ensures !(running && pid.Ok? && pid.value.Some? && probe(FirstRaise(probe, deadline)).value.ProcessLookupError?) ==>
              WaitCorrected(running, pid, probe, deadline) == WaitAsWritten(running, pid, probe, deadline)
  {
  }

  /** A live daemon with pid 42 owned by another user: the first probe is
      refused, and both the written and the corrected `wait` raise
      `PermissionError(42)` at once, leaving the daemon marked running. */
  lemma WaitPermissionDenied()
    ensures var probe := (k: nat) => Some(PermissionError(42));
            WaitAsWritten(true, Ok(Some(42)), probe, 0) == WaitEnd(Some(PermissionError(42)), true, 1) &&
            WaitCorrected(true, Ok(Some(42)), probe, 0) == WaitEnd(Some(PermissionError(42)), true, 1)
  {
  }

  /** The polling loop of `wait`: probe with the null signal, sleeping a
      second between probes, until a probe raises; the result counts the
      probes, the raising one included. */
  method PollUntilRaise(probe: nat -> Option<Error>, deadline: nat) returns (probes: nat)
    requires probe(deadline).Some?
    ensures probes == FirstRaise(probe, deadline) + 1
    ensures PolledUntilRaise(probe, probes)
  {
    var k: nat := 0;
    while probe(k).None?
      invariant k <= deadline
      invariant forall j: nat :: j < k ==> probe(j).None?
      decreases deadline - k
    {
      k := k + 1;
    }
    assert k == FirstRaise(probe, deadline) by {
      var first := FirstRaise(probe, deadline);
      assert first <= k && k <= first;
    }
    probes := k + 1;
  }

  // ---------------------------------------------------------------------
  // The daemon object

  class SaltDaemon {
    const kind: Kind
    /** `config_obj.salt_config_path` */
    const configPath: Path
    /** `config_obj.salt_run_path` */
    const runPath: Path
    var running: bool

    /** `SaltDaemon(config_obj)`: a new daemon is not running. */
    constructor (kind: Kind, ns: Namespace)
      requires WellTyped(ns)
      ensures this.kind == kind && configPath == SaltConfigPath(ns) && runPath == SaltRunPath(ns)
      ensures !running
    {
      this.kind := kind;
      configPath := SaltConfigPath(ns);
      runPath := SaltRunPath(ns);
      running := false;
    }

    /** The pid file `PIDFILE` in the run directory. */
    function PidPath(): (p: Path)
      ensures Beneath(p, runPath, PidFileName(kind))
    {
      Join(runPath, PidFileName(kind))
    }

    /** The `pid` property: `None` without a pid file, else its contents
        as an integer. */
    function Pid(fs: Snapshot): (r: Result<Option<int>>)
      ensures r == Ok(None) <==> !fs.Exists(PidPath())
      ensures fs.IsDir(PidPath()) ==> r == Err(IsADirectoryError(PidPath()))
      ensures r.Ok? && r.value.Some? ==> fs.IsFile(PidPath()) && ParseInt(fs.files[PidPath()]) == r.value
      ensures fs.IsFile(PidPath()) && ParseInt(fs.files[PidPath()]).None? ==>
                r == Err(ValueError(fs.files[PidPath()]))
      ensures fs.IsFile(PidPath()) && ParseInt(fs.files[PidPath()]).Some? ==>
                r == Ok(ParseInt(fs.files[PidPath()]))
    {
      var path := PidPath();
      if !fs.Exists(path) then Ok(None)
      else if fs.IsDir(path) then Err(IsADirectoryError(path))
      else match ParseInt(fs.files[path])
        case None => Err(ValueError(fs.files[path]))
        case Some(n) => Ok(Some(n))
    }

    /** `start(daemon)`: a no-op on a running daemon; otherwise spawn the
        daemon and mark it running only if the spawn exited with 0.  A spawn
        that could not be made raises its own exception. */
    method Start(daemon: bool, spawn: seq<string> -> Result<int>) returns (err: Option<Error>, spawned: Option<seq<string>>)
      modifies this
      ensures old(running) ==> running && err.None? && spawned.None?
      ensures !old(running) ==>
                var argv := StartArgv(Exe(kind), configPath, daemon);
                spawned == Some(argv) && (running <==> spawn(argv) == Ok(0)) &&
                (err.None? <==> spawn(argv) == Ok(0)) &&
                (spawn(argv).Err? ==> err == Some(spawn(argv).error)) &&
                (spawn(argv).Ok? && spawn(argv).value != 0 ==> err == Some(AssertionError(Decimal(spawn(argv).value))))
    {
      if running {
        return None, None;
      }
      var args := StartArgv(Exe(kind), configPath, daemon);
      var outcome := spawn(args);
      if outcome.Err? {
        return Some(outcome.error), Some(args);
      }
      var code := outcome.value;
      if code != 0 {
        return Some(AssertionError(Decimal(code))), Some(args);
      }
      running := true;
      return None, Some(args);
    }

    /** `stop()`: a no-op on a stopped daemon; otherwise signal the pid, if
        there is one, and clear the flag unless reading the pid or
        signalling raised. */
    method Stop(fs: Snapshot, kill: (int, int) -> Option<Error>) returns (err: Option<Error>, signalled: Option<int>)
      modifies this
      ensures !old(running) ==> !running && err.None? && signalled.None?
      ensures old(running) && Pid(fs).Err? ==> running && err == Some(Pid(fs).error) && signalled.None?
      ensures old(running) && Pid(fs) == Ok(None) ==> !running && err.None? && signalled.None?
      ensures old(running) && Pid(fs).Ok? && Pid(fs).value.Some? ==>
                var p := Pid(fs).value.value;
                signalled == Some(p) && err == kill(p, SighupSignal) && (running <==> err.Some?)
    {
      if !running {
        return None, None;
      }
      var pid := Pid(fs);
      if pid.Err? {
        return Some(pid.error), None;
      }
      if pid.value.Some? {
        signalled := Some(pid.value.value);
        err := kill(pid.value.value, SighupSignal);
        if err.Some? {
          return;
        }
      } else {
        signalled := None;
        err := None;
      }
      running := false;
    }

    /** `wait()` as written: poll with the null signal until the probe
        raises, and let that exception out. */
    method Wait(fs: Snapshot, probe: nat -> Option<Error>, deadline: nat) returns (err: Option<Error>, probes: nat)
      requires probe(deadline).Some?
      modifies this
      ensures WaitEnd(err, running, probes) == WaitAsWritten(old(running), Pid(fs), probe, deadline)
    {
      if !running {
        return None, 0;
      }
      var pid := Pid(fs);
      if pid.Err? {
        return Some(pid.error), 0;
      }
      if pid.value.None? {
        return Some(AssertionError("")), 0;
      }
      probes := PollUntilRaise(probe, deadline);
      err := probe(probes - 1);
    }

    /** `wait()` as evidently intended: the same polling, then the flag is
        cleared once the process is gone. */
    method WaitIntended(fs: Snapshot, probe: nat -> Option<Error>, deadline: nat) returns (err: Option<Error>, probes: nat)
      requires probe(deadline).Some?
      modifies this
      ensures WaitEnd(err, running, probes) == WaitCorrected(old(running), Pid(fs), probe, deadline)
    {
      if !running {
        return None, 0;
      }
      var pid := Pid(fs);
      if pid.Err? {
        return Some(pid.error), 0;
      }
      if pid.value.None? {
        return Some(AssertionError("")), 0;
      }
      probes := PollUntilRaise(probe, deadline);
      if probe(probes - 1).value.ProcessLookupError? {
        running := false;
        err := None;
      } else {
        err := probe(probes - 1);
      }
    }
  }

  /** `from_config(config_obj, running)`: a new daemon, started (as a
      background daemon) only when `running` is set. */
  method FromConfig(kind: Kind, ns: Namespace, running: bool, spawn: seq<string> -> Result<int>)
    returns (d: SaltDaemon, err: Option<Error>)
    requires WellTyped(ns)
    ensures fresh(d) && d.kind == kind && d.configPath == SaltConfigPath(ns) && d.runPath == SaltRunPath(ns)
    ensures !running ==> !d.running && err.None?
    ensures running ==> var code := spawn(StartArgv(Exe(kind), SaltConfigPath(ns), true));
                        (d.running <==> code == Ok(0)) && (err.None? <==> code == Ok(0))
  {
    d := new SaltDaemon(kind, ns);
    err := None;
    if running {
      var spawned;
      err, spawned := d.Start(true, spawn);
    }
  }
}
