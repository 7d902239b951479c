/** Installing a recipe package (src/saltbox/api.py): `installer_factory`
    stacks `BottomTemplate`, `Cache` and `RegistryWriter`, and `add_package`
    walks that stack through `super()`, each layer passing a (possibly
    different) directory on to the next; `RegistryWriter` finally appends it
    to the registry, which is loaded on enter and saved on exit. */
module Installation {
  import opened Common
  import opened Paths
  import opened Disk
  import opened Registries
  import opened BoxConfig

  /** The mixins the installer type is assembled from, in MRO order. */
  datatype Layer = BottomTemplate | Cache | RegistryWriter

  /** What the installer needs from its surroundings: `os.path.abspath`,
      the hex digest of `hashlib.md5`, the cache root of the configuration
      and the directory the package is installed in (`HERE`). */
  datatype Env = Env(abspath: Path -> Path, md5hex: string -> string, cacheRoot: Path, here: Path)

  predicate IsHexDigest(h: string)
  {
    |h| == 32 && forall i :: 0 <= i < |h| ==> h[i] in "0123456789abcdef"
  }

  /** `BottomTemplate.bottom_template_path`: the `template` directory
      shipped next to the module. */
  function BottomTemplatePath(here: Path): (p: Path)
    ensures Beneath(p, here, "template")
  {
    Join(here, "template")
  }

  /** `Cache.cache_dir`: the cache slot named after the digest of the
      package's absolute path. */
  function CacheDir(env: Env, p: Path): (slot: Path)
    ensures IsHexDigest(env.md5hex(env.abspath(p))) ==>
              |slot| >= |env.cacheRoot| + 32 && slot[..|env.cacheRoot|] == env.cacheRoot &&
              slot[|slot| - 32..] == env.md5hex(env.abspath(p))
  {
    var h := env.md5hex(env.abspath(p));
    assert IsHexDigest(h) ==> !IsAbsolute(h) by {
      if IsHexDigest(h) { assert h[0] in "0123456789abcdef"; }
    }
    Join(env.cacheRoot, h)
  }

  /** Two packages share a cache slot exactly when the digests of their
      absolute paths agree: the slot is a deterministic, collision-free
      function of the digest. */
  lemma CacheDirInjective(env: Env, p: Path, q: Path)
    requires IsHexDigest(env.md5hex(env.abspath(p))) && IsHexDigest(env.md5hex(env.abspath(q)))
    ensures CacheDir(env, p) == CacheDir(env, q) <==> env.md5hex(env.abspath(p)) == env.md5hex(env.abspath(q))
  {
    var hp, hq := env.md5hex(env.abspath(p)), env.md5hex(env.abspath(q));
    assert !IsAbsolute(hp) by { assert hp[0] in "0123456789abcdef"; }
    assert !IsAbsolute(hq) by { assert hq[0] in "0123456789abcdef"; }
    JoinInjective(env.cacheRoot, hp, hq);
  }

  /** `SaltBox.installer_factory`: `RegistryWriter` always, `Cache` in front
      of it when the install cache is on, and `BottomTemplate` in front of
      everything when the salt configuration directory does not exist yet. */
  function InstallerBases(useCache: bool, configExists: bool): (bases: seq<Layer>)
    ensures |bases| > 0 && bases[|bases| - 1] == RegistryWriter
    ensures (BottomTemplate in bases <==> !configExists) && (Cache in bases <==> useCache)
    ensures !configExists ==> bases[0] == BottomTemplate
    ensures NoDup(bases)
  {
    var withCache := if useCache then [Cache, RegistryWriter] else [RegistryWriter];
    if configExists then withCache else [BottomTemplate] + withCache
  }

  /** `shutil.copytree(src, dst)`: the source must be an existing directory
      and the destination must not exist. */
  function CopyTree(fs: Snapshot, src: Path, dst: Path): (s: Step<Snapshot>)
    ensures s.err.None? <==> fs.IsDir(src) && !fs.Exists(dst)
    ensures s.err.None? ==> s.state == fs.(dirs := fs.dirs[dst := fs.dirs[src]])
    ensures s.err.Some? ==> s.state == fs
    ensures fs.IsDir(src) && fs.Exists(dst) ==> s.err == Some(FileExistsError(dst))
  {
    if !fs.Exists(src) then Step(fs, Some(FileNotFoundError(src)))
    else if !fs.IsDir(src) then Step(fs, Some(NotADirectoryError(src)))
    else if fs.Exists(dst) then Step(fs, Some(FileExistsError(dst)))
    else Step(fs.(dirs := fs.dirs[dst := fs.dirs[src]]), None)
  }

  /** The registry held by `RegistryWriter` (`None` outside the with-block)
      and the filesystem. */
  datatype InstallState = InstallState(registry: Option<seq<Path>>, fs: Snapshot)

  /** `add_package` on the installer whose remaining MRO is `bases`. */
  function AddPackageChain(bases: seq<Layer>, env: Env, st: InstallState, p: Path): (s: Step<InstallState>)
    ensures st.registry.None? ==> s.state.registry.None?
    ensures st.registry.Some? ==> s.state.registry.Some? && |st.registry.value| <= |s.state.registry.value| &&
                                  s.state.registry.value[..|st.registry.value|] == st.registry.value
    ensures st.fs.dirs.Keys <= s.state.fs.dirs.Keys && s.state.fs.files == st.fs.files
    decreases |bases|
  {
    if bases == [] then Step(st, Some(AttributeError("add_package")))
    else
      var next := bases[1..];
      match bases[0]
      case BottomTemplate =>
        var first := AddPackageChain(next, env, st, BottomTemplatePath(env.here));
        if first.err.Some? then first
        else
          var second := AddPackageChain(next, env, first.state, p);
          assert second.state.registry.Some? ==>
            second.state.registry.value[..|first.state.registry.value|] == first.state.registry.value;
          second
      case Cache =>
        var slot := CacheDir(env, p);
        var copied := CopyTree(st.fs, env.abspath(p), env.abspath(slot));
        if copied.err.Some? then Step(st, copied.err)
        else AddPackageChain(next, env, st.(fs := copied.state), slot)
      case RegistryWriter =>
        match st.registry
        case None => Step(st, Some(AssertionError("")))
        case Some(roots) =>
          match CheckedAppend(roots, st.fs, env.abspath, p)
          case Err(e) => Step(st, Some(e))
          case Ok(rs) => Step(st.(registry := Some(rs)), None)
  }

  // ---------------------------------------------------------------------
  // Properties of the chain

  /** Without a salt configuration and without the cache, `add_package(p)`
      registers the bundled bottom template and then `p`; the registry stays
      duplicate-free, so the bottom template is in it exactly once however
      many packages are installed. */
  lemma BottomTemplateFirst(env: Env, roots: seq<Path>, fs: Snapshot, p: Path)
    requires NoDup(roots)
    requires fs.IsDir(env.abspath(BottomTemplatePath(env.here))) && fs.IsDir(env.abspath(p))
    ensures var s := AddPackageChain(InstallerBases(false, false), env, InstallState(Some(roots), fs), p);
            var b, q := env.abspath(BottomTemplatePath(env.here)), env.abspath(p);
            s.err.None? && s.state.fs == fs &&
            s.state.registry == Some(AppendRoot(AppendRoot(roots, b), q)) &&
            NoDup(s.state.registry.value) && b in s.state.registry.value && q in s.state.registry.value
  {
    var b := BottomTemplatePath(env.here);
    var st := InstallState(Some(roots), fs);
    var first := AddPackageChain([RegistryWriter], env, st, b);
    assert first == Step(st.(registry := Some(AppendRoot(roots, env.abspath(b)))), None);
    var second := AddPackageChain([RegistryWriter], env, first.state, p);
    assert second.state.registry == Some(AppendRoot(AppendRoot(roots, env.abspath(b)), env.abspath(p)));
  }

  /** Installing the same package twice without the cache leaves the
      registry as one install does. */
  lemma ReinstallIdempotent(configExists: bool, env: Env, roots: seq<Path>, fs: Snapshot, p: Path)
    requires fs.IsDir(env.abspath(BottomTemplatePath(env.here))) && fs.IsDir(env.abspath(p))
    ensures var bases := InstallerBases(false, configExists);
            var once := AddPackageChain(bases, env, InstallState(Some(roots), fs), p);
            once.err.None? && AddPackageChain(bases, env, once.state, p) == once
  {
    var bases := InstallerBases(false, configExists);
    var bottom := BottomTemplatePath(env.here);
    var b, q := env.abspath(bottom), env.abspath(p);
    var st := InstallState(Some(roots), fs);
    if configExists {
      assert bases == [RegistryWriter];
      AppendRootIdempotent(roots, q);
    } else {
      assert bases[1..] == [RegistryWriter];
      var r0 := AppendRoot(roots, b);
      var r1 := AppendRoot(r0, q);
      var first := AddPackageChain([RegistryWriter], env, st, bottom);
      assert first == Step(st.(registry := Some(r0)), None);
      assert AddPackageChain([RegistryWriter], env, first.state, p) == Step(InstallState(Some(r1), fs), None);
      var once := AddPackageChain(bases, env, st, p);
      assert once == Step(InstallState(Some(r1), fs), None);
      assert AddPackageChain([RegistryWriter], env, once.state, bottom) == Step(once.state, None);
      assert AppendRoot(r1, q) == r1;
    }
  }

  /** With the cache on, the registry receives the cache slot rather than the
      package directory, and the slot holds a copy of the package. */
  lemma CacheRelocates(env: Env, roots: seq<Path>, fs: Snapshot, p: Path)
    requires fs.IsDir(env.abspath(p)) && !fs.Exists(env.abspath(CacheDir(env, p)))
    ensures var s := AddPackageChain([Cache, RegistryWriter], env, InstallState(Some(roots), fs), p);
            var slot := env.abspath(CacheDir(env, p));
            s.err.None? && s.state.registry == Some(AppendRoot(roots, slot)) &&
            slot in s.state.fs.dirs && s.state.fs.dirs[slot] == fs.dirs[env.abspath(p)]
  {
    var slot := CacheDir(env, p);
    var fs1 := fs.(dirs := fs.dirs[env.abspath(slot) := fs.dirs[env.abspath(p)]]);
    assert CopyTree(fs, env.abspath(p), env.abspath(slot)) == Step(fs1, None);
    assert [Cache, RegistryWriter][1..] == [RegistryWriter];
    assert AddPackageChain([RegistryWriter], env, InstallState(Some(roots), fs1), slot)
        == Step(InstallState(Some(AppendRoot(roots, env.abspath(slot))), fs1), None);
  }

  /** A package whose cache slot is already occupied cannot be installed
      again through the cache: `copytree` raises and nothing is registered. */
  lemma CachedReinstallFails(env: Env, roots: seq<Path>, fs: Snapshot, p: Path)
    requires fs.IsDir(env.abspath(p)) && fs.Exists(env.abspath(CacheDir(env, p)))
    ensures var s := AddPackageChain([Cache, RegistryWriter], env, InstallState(Some(roots), fs), p);
            s == Step(InstallState(Some(roots), fs), Some(FileExistsError(env.abspath(CacheDir(env, p)))))
  {
  }

  /** With both the bottom template and the cache in the stack, once one
      install has succeeded every further install fails on the bottom
      template's occupied cache slot, before anything is registered. */
  lemma SecondCachedInstallFails(env: Env, st: InstallState, p: Path, q: Path)
    requires st.registry.Some?
    requires AddPackageChain([BottomTemplate, Cache, RegistryWriter], env, st, p).err.None?
    ensures var once := AddPackageChain([BottomTemplate, Cache, RegistryWriter], env, st, p);
            var slot := env.abspath(CacheDir(env, BottomTemplatePath(env.here)));
            AddPackageChain([BottomTemplate, Cache, RegistryWriter], env, once.state, q)
              == Step(once.state, Some(FileExistsError(slot)))
  {
    var b := BottomTemplatePath(env.here);
    var bases := [BottomTemplate, Cache, RegistryWriter];
    var next := [Cache, RegistryWriter];
    assert bases[1..] == next && next[1..] == [RegistryWriter];
    var slot := env.abspath(CacheDir(env, b));
    var first := AddPackageChain(next, env, st, b);
    assert first.err.None?;
    assert slot in first.state.fs.dirs;
    var once := AddPackageChain(bases, env, st, p);
    assert once == AddPackageChain(next, env, first.state, p);
    assert slot in once.state.fs.dirs;
    assert env.abspath(b) in once.state.fs.dirs by {
      assert env.abspath(b) in st.fs.dirs;
    }
  }

  // ---------------------------------------------------------------------
  // The `install` command

  /** `Cache.__init__`: create the cache root when it is missing. */
  function CacheInit(fs: Snapshot, cacheRoot: Path): (s: Snapshot)
    ensures s.Exists(cacheRoot)
    ensures !fs.Exists(cacheRoot) ==> s.IsDir(cacheRoot) && s.dirs[cacheRoot] == map[]
    ensures s.files == fs.files && fs.dirs.Keys <= s.dirs.Keys <= fs.dirs.Keys + {cacheRoot}
    ensures forall d :: d in fs.dirs ==> s.dirs[d] == fs.dirs[d]
  {
    if fs.Exists(cacheRoot) then fs else fs.(dirs := fs.dirs[cacheRoot := map[]])
  }

  function EnvFor(ns: Namespace, abspath: Path -> Path, md5hex: string -> string, here: Path): Env
    requires WellTyped(ns)
  {
    Env(abspath, md5hex, SaltboxCacheRoot(ns), here)
  }

  /** `with SaltBox.installer_factory(config) as api: api.add_package(p)`:
      build the stack, load the registry on enter, add the package, and on
      exit save the registry whether or not the body raised; an exception of
      the save replaces that of the body. */
  function InstallSpec(ns: Namespace, fs: Snapshot, abspath: Path -> Path, md5hex: string -> string,
                       here: Path, p: Path): (s: Step<Snapshot>)
    requires WellTyped(ns)
    ensures s.state.files - {SaltboxRegistryPath(ns)} == fs.files - {SaltboxRegistryPath(ns)}
    ensures fs.dirs.Keys <= s.state.dirs.Keys
    ensures fs.IsDir(SaltboxRegistryPath(ns)) ==> s.err == Some(IsADirectoryError(SaltboxRegistryPath(ns)))
  {
    var bases := InstallerBases(Truthy(UseInstallCache(ns)), fs.Exists(SaltConfigPath(ns)));
    var env := EnvFor(ns, abspath, md5hex, here);
    var fs1 := if Cache in bases then CacheInit(fs, env.cacheRoot) else fs;
    var path := SaltboxRegistryPath(ns);
    match FromFile(fs1, path)
    case Err(e) => Step(fs1, Some(e))
    case Ok(roots) => InstallLoaded(bases, env, fs1, path, roots, p)
  }

  /** The with-block once the registry `roots` is loaded from `path`: add the
      package, then save whether or not that raised. */
  function InstallLoaded(bases: seq<Layer>, env: Env, fs: Snapshot, path: Path, roots: seq<Path>, p: Path)
    : (s: Step<Snapshot>)
    ensures s.state.files - {path} == fs.files - {path}
    ensures fs.dirs.Keys <= s.state.dirs.Keys
  {
    var body := AddPackageChain(bases, env, InstallState(Some(roots), fs), p);
    var saved := SaveSpec(body.state.fs, path, body.state.registry.value);
    assert saved.state.files - {path} == fs.files - {path};
    Step(saved.state, if saved.err.Some? then saved.err else body.err)
  }

  lemma LoadedBefore(fs: Snapshot, path: Path)
    requires !fs.IsDir(path)
    ensures FromFile(fs, path) == Ok(if path in fs.files then Parse(fs.files[path]) else [])
  {
  }

  lemma AppendRejects(env: Env, roots: seq<Path>, fs: Snapshot, p: Path)
    requires !fs.IsDir(env.abspath(p))
    ensures AddPackageChain([RegistryWriter], env, InstallState(Some(roots), fs), p)
         == Step(InstallState(Some(roots), fs), Some(AssertionError(p)))
  {
  }

  /** A failed install still rewrites the registry file: with the salt
      configuration present and no cache, installing a path that is not a
      directory raises the assertion and leaves the file holding the
      normalised form of what was loaded (an empty file when there was none),
      which is the original text only when that was already normal. */
  lemma FailedInstallRewritesRegistry(ns: Namespace, fs: Snapshot, abspath: Path -> Path,
                                       md5hex: string -> string, here: Path, p: Path)
    requires WellTyped(ns) && !Truthy(UseInstallCache(ns)) && fs.Exists(SaltConfigPath(ns))
    requires !fs.IsDir(abspath(p))
    requires fs.IsDir(Dirname(SaltboxRegistryPath(ns))) && !fs.IsDir(SaltboxRegistryPath(ns))
    ensures var s := InstallSpec(ns, fs, abspath, md5hex, here, p);
            var path := SaltboxRegistryPath(ns);
            var before := if path in fs.files then Parse(fs.files[path]) else [];
            s.err == Some(AssertionError(p)) && s.state.dirs == fs.dirs &&
            s.state.files == fs.files[path := Serialize(before)]
  {
    var path := SaltboxRegistryPath(ns);
    var env := EnvFor(ns, abspath, md5hex, here);
    assert InstallerBases(false, true) == [RegistryWriter];
    var before := if path in fs.files then Parse(fs.files[path]) else [];
    LoadedBefore(fs, path);
    var body := AddPackageChain([RegistryWriter], env, InstallState(Some(before), fs), p);
    AppendRejects(env, before, fs, p);
    var saved := SaveSpec(fs, path, before);
    assert saved == Step(fs.(files := fs.files[path := Serialize(before)]), None);
    assert InstallSpec(ns, fs, abspath, md5hex, here, p) == Step(saved.state, body.err);
  }

  // ---------------------------------------------------------------------
  // The imperative installer

  method CopyTreeOn(fs: FileSystem, src: Path, dst: Path) returns (err: Option<Error>)
    modifies fs
    ensures Step(fs.Snap(), err) == CopyTree(old(fs.Snap()), src, dst)
  {
    if !(src in fs.dirs || src in fs.files) {
      return Some(FileNotFoundError(src));
    }
    if src !in fs.dirs {
      return Some(NotADirectoryError(src));
    }
    if dst in fs.dirs || dst in fs.files {
      return Some(FileExistsError(dst));
    }
    fs.dirs := fs.dirs[dst := fs.dirs[src]];
    return None;
  }

  /** The object `installer_factory` synthesises, with the `_registry` slot
      of `RegistryWriter`. */
  class Installer {
    const bases: seq<Layer>
    const env: Env
    const registryPath: Path
    const fs: FileSystem
    var registry: Registry?

    function State(): InstallState
      reads this, registry, fs
    {
      InstallState(if registry == null then None else Some(registry.roots), fs.Snap())
    }

    /** `installer_factory(config)` followed by `__init__` (the cache layer
      creates the cache root). */
    constructor (ns: Namespace, fs: FileSystem, abspath: Path -> Path, md5hex: string -> string, here: Path)
      requires WellTyped(ns)
      modifies fs
      ensures bases == InstallerBases(Truthy(UseInstallCache(ns)), old(fs.Snap()).Exists(SaltConfigPath(ns)))
      ensures env == EnvFor(ns, abspath, md5hex, here) && registryPath == SaltboxRegistryPath(ns)
      ensures this.fs == fs && registry == null
      ensures fs.Snap() == if Cache in bases then CacheInit(old(fs.Snap()), env.cacheRoot) else old(fs.Snap())
    {
      var configPath := SaltConfigPath(ns);
      bases := InstallerBases(Truthy(UseInstallCache(ns)), configPath in fs.dirs || configPath in fs.files);
      env := EnvFor(ns, abspath, md5hex, here);
      registryPath := SaltboxRegistryPath(ns);
      this.fs := fs;
      registry := null;
      new;
      if Cache in bases && !(env.cacheRoot in fs.dirs || env.cacheRoot in fs.files) {
        fs.dirs := fs.dirs[env.cacheRoot := map[]];
      }
    }

    /** `__enter__`: load the registry file. */
    method Enter() returns (err: Option<Error>)
      modifies this
      ensures fs.Snap() == old(fs.Snap())
      ensures var r := FromFile(fs.Snap(), registryPath);
              if r.Ok? then err.None? && registry != null && fresh(registry) && registry.roots == r.value
              else err == Some(r.error) && registry == old(registry)
    {
      var r := FromFile(fs.Snap(), registryPath);
      if r.Err? {
        return Some(r.error);
      }
      registry := new Registry(r.value);
      return None;
    }

    /** `add_package` from layer `i` of the stack on. */
    method AddFrom(i: nat, p: Path) returns (err: Option<Error>)
      requires i <= |bases|
      modifies registry, fs
      ensures registry == old(registry)
      ensures Step(State(), err) == AddPackageChain(bases[i..], env, old(State()), p)
      decreases |bases| - i, 1
    {
      if i == |bases| {
        return Some(AttributeError("add_package"));
      }
      match bases[i]
      case BottomTemplate => err := AddBottom(i, p);
      case Cache => err := AddCached(i, p);
      case RegistryWriter => err := AddRegistered(i, p);
    }

    /** `BottomTemplate.add_package`: the bottom template, then the package. */
    method AddBottom(i: nat, p: Path) returns (err: Option<Error>)
      requires i < |bases| && bases[i] == BottomTemplate
      modifies registry, fs
      ensures registry == old(registry)
      ensures Step(State(), err) == AddPackageChain(bases[i..], env, old(State()), p)
      decreases |bases| - i, 0
    {
      assert bases[i..][0] == bases[i] && bases[i..][1..] == bases[i + 1..];
      err := AddFrom(i + 1, BottomTemplatePath(env.here));
      if err.Some? {
        return;
      }
      err := AddFrom(i + 1, p);
    }

    /** `Cache.add_package`: copy into the cache slot, pass the slot on. */
    method AddCached(i: nat, p: Path) returns (err: Option<Error>)
      requires i < |bases| && bases[i] == Cache
      modifies registry, fs
      ensures registry == old(registry)
      ensures Step(State(), err) == AddPackageChain(bases[i..], env, old(State()), p)
      decreases |bases| - i, 0
    {
      assert bases[i..][0] == bases[i] && bases[i..][1..] == bases[i + 1..];
      var slot := CacheDir(env, p);
      err := CopyTreeOn(fs, env.abspath(p), env.abspath(slot));
      if err.Some? {
        return;
      }
      err := AddFrom(i + 1, slot);
    }

    /** `RegistryWriter.add_package`: append to the loaded registry. */
    method AddRegistered(i: nat, p: Path) returns (err: Option<Error>)
      requires i < |bases| && bases[i] == RegistryWriter
      modifies registry, fs
      ensures registry == old(registry)
      ensures Step(State(), err) == AddPackageChain(bases[i..], env, old(State()), p)
    {
      assert bases[i..][0] == bases[i];
      if registry == null {
        return Some(AssertionError(""));
      }
      err := registry.Append(fs, env.abspath, p);
    }

    method AddPackage(p: Path) returns (err: Option<Error>)
      modifies registry, fs
      ensures registry == old(registry)
      ensures Step(State(), err) == AddPackageChain(bases, env, old(State()), p)
    {
      assert bases[0..] == bases;
      err := AddFrom(0, p);
    }

    /** `__exit__`: save the registry, then forget it; a save that raises
        leaves the registry loaded. */
    method Exit() returns (err: Option<Error>)
      modifies this, fs
      ensures err.None? ==> registry == null
      ensures err.Some? ==> registry == old(registry)
      ensures old(registry) == null ==> err == Some(AttributeError("to_file")) && fs.Snap() == old(fs.Snap())
      ensures old(registry) != null ==>
                Step(fs.Snap(), err) == SaveSpec(old(fs.Snap()), registryPath, old(registry.roots))
    {
      if registry == null {
        return Some(AttributeError("to_file"));
      }
      err := registry.ToFile(fs, registryPath);
      if err.None? {
        registry := null;
      }
    }
  }

  /** The `install` command: the with-block around `add_package`. */
  method Install(ns: Namespace, fs: FileSystem, abspath: Path -> Path, md5hex: string -> string,
                 here: Path, p: Path) returns (err: Option<Error>)
    requires WellTyped(ns)
    modifies fs
    ensures Step(fs.Snap(), err) == InstallSpec(ns, old(fs.Snap()), abspath, md5hex, here, p)
  {
    var api := new Installer(ns, fs, abspath, md5hex, here);
    err := api.Enter();
    if err.Some? {
      return;
    }
    var bodyErr := api.AddPackage(p);
    var exitErr := api.Exit();
    err := if exitErr.Some? then exitErr else bodyErr;
  }
}
