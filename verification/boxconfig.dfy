/** `SaltBoxConfig` (src/saltbox/api.py): a namespace of underscore-prefixed
    attributes built from keyword arguments, and the installation layout
    derived from its prefix. */
module BoxConfig {
  import opened Common
  import opened Paths

  const BoxDefaultRegistryPath: string := "etc/saltbox/registry.txt"
  const BoxDefaultCachePath: string := "var/cache/saltbox"
  const SaltDefaultConfigPath: string := "etc/salt"
  const SaltDefaultRunPath: string := "var/run"
  const SaltLoglevel: string := "debug"

  /** The attributes of a `SaltBoxConfig` object, by name. */
  type Namespace = map<string, Value>

  /** The attribute name a keyword argument is stored under. */
  function Attr(keyword: string): string
  {
    "_" + keyword
  }

  lemma AttrInjective(a: string, b: string)
    ensures Attr(a) == Attr(b) ==> a == b
  {
    if Attr(a) == Attr(b) {
      assert a == Attr(a)[1..] && b == Attr(b)[1..];
    }
  }

  /** `SaltBoxConfig.from_env(**dargs)`: `prefix` defaults to `sys.prefix`,
      and every keyword `k` becomes the attribute `_k`. */
  function FromEnv(dargs: map<string, Value>, sysPrefix: Path): (ns: Namespace)
    ensures Attr("prefix") in ns
    ensures ns[Attr("prefix")] == if "prefix" in dargs then dargs["prefix"] else Str(sysPrefix)
    ensures forall k :: k in dargs ==> Attr(k) in ns && (k != "prefix" ==> ns[Attr(k)] == dargs[k])
    ensures forall a :: a in ns ==> exists k :: (k in dargs || k == "prefix") && a == Attr(k)
  {
    var d := dargs["prefix" := if "prefix" in dargs then dargs["prefix"] else Str(sysPrefix)];
    AttributesOf(d);
    Attributes(d)
  }

  /** Every keyword of `d` stored under its attribute name. */
  function Attributes(d: map<string, Value>): Namespace
  {
    assert forall a, b :: a in d && b in d && Attr(a) == Attr(b) ==> a == b by {
      forall a, b | a in d && b in d && Attr(a) == Attr(b) ensures a == b {
        AttrInjective(a, b);
      }
    }
    map k | k in d :: Attr(k) := d[k]
  }

  lemma AttributesOf(d: map<string, Value>)
    ensures forall k :: k in d ==> Attr(k) in Attributes(d) && Attributes(d)[Attr(k)] == d[k]
    ensures forall a :: a in Attributes(d) ==> exists k :: k in d && a == Attr(k)
  {
    var ns := Attributes(d);
    forall k | k in d ensures Attr(k) in ns && ns[Attr(k)] == d[k] {
      forall j | j in d && Attr(j) == Attr(k) ensures j == k {
        AttrInjective(j, k);
      }
    }
  }

  /** What the properties below need: a string prefix, and a string
      `bin_prefix` when one is given (`os.path.join` raises otherwise). */
  predicate WellTyped(ns: Namespace)
  {
    Attr("prefix") in ns && ns[Attr("prefix")].Str? &&
    (Attr("bin_prefix") in ns ==> ns[Attr("bin_prefix")].Str?)
  }

  function Prefix(ns: Namespace): Path
    requires WellTyped(ns)
  {
    ns[Attr("prefix")].str
  }

  /** `use_install_cache`: the stored value, or `False` when absent. */
  function UseInstallCache(ns: Namespace): (v: Value)
    ensures Attr("use_install_cache") in ns ==> v == ns[Attr("use_install_cache")]
    ensures Attr("use_install_cache") !in ns ==> !Truthy(v)
  {
    if Attr("use_install_cache") in ns then ns[Attr("use_install_cache")] else Bool(false)
  }

  /** `p` is `prefix` followed by the relative location `name`, with at
      most one separator between them and nothing else. */
  predicate Beneath(p: Path, prefix: Path, name: Path)
  {
    !IsAbsolute(name) && (p == prefix + name || p == prefix + "/" + name)
  }

  /** `saltbox_cache_root`: `var/cache/saltbox` under the prefix. */
  function SaltboxCacheRoot(ns: Namespace): (p: Path)
    requires WellTyped(ns)
    ensures Beneath(p, Prefix(ns), BoxDefaultCachePath)
  {
    Join(Prefix(ns), BoxDefaultCachePath)
  }

  /** `salt_root_path`: the prefix itself. */
  function SaltRootPath(ns: Namespace): (p: Path)
    requires WellTyped(ns)
    ensures p == Prefix(ns)
  {
    Prefix(ns)
  }

  /** `salt_config_path`: `etc/salt` under the salt root. */
  function SaltConfigPath(ns: Namespace): (p: Path)
    requires WellTyped(ns)
    ensures Beneath(p, SaltRootPath(ns), SaltDefaultConfigPath)
  {
    Join(SaltRootPath(ns), SaltDefaultConfigPath)
  }

  /** `salt_run_path`: `var/run` under the salt root. */
  function SaltRunPath(ns: Namespace): (p: Path)
    requires WellTyped(ns)
    ensures Beneath(p, SaltRootPath(ns), SaltDefaultRunPath)
  {
    Join(SaltRootPath(ns), SaltDefaultRunPath)
  }

  /** `bin_prefix`: the stored value, or `prefix/bin`. */
  function BinPrefix(ns: Namespace): (p: Path)
    requires WellTyped(ns)
    ensures Attr("bin_prefix") in ns ==> p == ns[Attr("bin_prefix")].str
    ensures Attr("bin_prefix") !in ns ==> Beneath(p, Prefix(ns), "bin")
  {
    if Attr("bin_prefix") in ns then ns[Attr("bin_prefix")].str else Join(Prefix(ns), "bin")
  }

  /** `saltbox_registry_path`: `etc/saltbox/registry.txt` under the prefix. */
  function SaltboxRegistryPath(ns: Namespace): (p: Path)
    requires WellTyped(ns)
    ensures Beneath(p, Prefix(ns), BoxDefaultRegistryPath)
  {
    Join(Prefix(ns), BoxDefaultRegistryPath)
  }

  /** The defaults `from_env` leaves in place when only a prefix is known:
      no install cache, binaries under `prefix/bin`, and the salt root is the
      prefix itself. */
  lemma FromEnvDefaults(dargs: map<string, Value>, sysPrefix: Path)
    requires "prefix" in dargs ==> dargs["prefix"].Str?
    requires "bin_prefix" in dargs ==> dargs["bin_prefix"].Str?
    ensures WellTyped(FromEnv(dargs, sysPrefix))
    ensures Prefix(FromEnv(dargs, sysPrefix)) == if "prefix" in dargs then dargs["prefix"].str else sysPrefix
    ensures "use_install_cache" !in dargs ==> !Truthy(UseInstallCache(FromEnv(dargs, sysPrefix)))
    ensures "bin_prefix" !in dargs ==> BinPrefix(FromEnv(dargs, sysPrefix)) == Join(Prefix(FromEnv(dargs, sysPrefix)), "bin")
    ensures "bin_prefix" in dargs ==> BinPrefix(FromEnv(dargs, sysPrefix)) == dargs["bin_prefix"].str
  {
    var ns := FromEnv(dargs, sysPrefix);
    if Attr("use_install_cache") in ns {
      var k :| (k in dargs || k == "prefix") && Attr("use_install_cache") == Attr(k);
      AttrInjective(k, "use_install_cache");
    }
    if Attr("bin_prefix") in ns {
      var k :| (k in dargs || k == "prefix") && Attr("bin_prefix") == Attr(k);
      AttrInjective(k, "bin_prefix");
    }
  }

  /** Every location of the installation lies under the prefix, and the
      cache, salt configuration, run directory and registry file are four
      distinct paths. */
  lemma LayoutUnderPrefix(ns: Namespace)
    requires WellTyped(ns)
    ensures var p := Prefix(ns);
            SaltboxCacheRoot(ns)[..|p|] == p && SaltConfigPath(ns)[..|p|] == p &&
            SaltRunPath(ns)[..|p|] == p && SaltboxRegistryPath(ns)[..|p|] == p
    ensures var paths := [SaltboxCacheRoot(ns), SaltConfigPath(ns), SaltRunPath(ns), SaltboxRegistryPath(ns)];
            forall i, j :: 0 <= i < j < 4 ==> paths[i] != paths[j]
  {
    var p := Prefix(ns);
    var names := [BoxDefaultCachePath, SaltDefaultConfigPath, SaltDefaultRunPath, BoxDefaultRegistryPath];
    forall i, j | 0 <= i < j < 4 ensures Join(p, names[i]) != Join(p, names[j]) {
      JoinInjective(p, names[i], names[j]);
    }
  }
}
