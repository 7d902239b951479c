/** `TemplateRenderer` (src/saltbox/api.py): every registered template root
    is rendered, one at a time, into a scratch directory with the variable
    `SALTROOT` bound to the salt root, and the result is copied over the salt
    root with `rsync -a` while a lock file in the salt root is held.  Later
    roots therefore win over earlier ones, and nothing is ever deleted from
    the salt root. */
module Rendering {
  import opened Common
  import opened Paths
  import opened Disk
  import opened Templates
  import Registries
  import BoxConfig

  /** The message of the assertion `_merge` makes when rsync is missing. */
  const RsyncMissing: string := "Salt box depends on rsync, please install via your system's package manager"

  /** The file `_merge` locks inside the destination root. */
  const LockName: RelPath := "lock"

  /** `dict(SALTROOT=salt_root)`. */
  function TemplateVars(saltRoot: Path): (v: Vars)
    ensures v.Keys == {"SALTROOT"} && v["SALTROOT"] == saltRoot
  {
    map["SALTROOT" := saltRoot]
  }

  /** The destination tree after `_merge`: the lock file is created (or
      truncated), then rsync copies every rendered entry over it. */
  function Merge(dst: Tree, rendered: Tree): (t: Tree)
    ensures LockName in t
  {
    dst[LockName := File("")] + rendered
  }

  /** What `_merge` leaves in the destination: every path of either tree
      plus the lock file, the rendered entry wherever there is one, and the
      old entry everywhere else but the lock file. */
  lemma MergeOverlays(dst: Tree, rendered: Tree)
    ensures Merge(dst, rendered).Keys == dst.Keys + rendered.Keys + {LockName}
    ensures forall rel :: rel in rendered ==> Merge(dst, rendered)[rel] == rendered[rel]
    ensures forall rel :: rel in dst && rel !in rendered && rel != LockName ==> Merge(dst, rendered)[rel] == dst[rel]
    ensures LockName !in rendered ==> Merge(dst, rendered)[LockName] == File("")
  {
  }

  /** The exception `FileLock` raises when the destination root cannot hold
      its lock file. */
  function LockError(fs: Snapshot, dstRoot: Path): Error
  {
    if fs.Exists(dstRoot) then NotADirectoryError(Join(dstRoot, LockName))
    else FileNotFoundError(Join(dstRoot, LockName))
  }

  /** `render_one(template_root, salt_root, template_vars)` with the scratch
      directory `tmp`, from the caller's point of view: the scratch directory
      is gone again afterwards, and on success only the salt root's entry
      changed (nested paths under it are entries of their own and are not
      re-read). */
  function RenderOne(fs: Snapshot, root: Path, saltRoot: Path, tmp: Path, vars: Vars, engine: Engine, rsync: bool)
    : (r: Result<Snapshot>)
    ensures r.Ok? <==> fs.IsDir(root) && rsync && fs.IsDir(saltRoot)
    ensures !fs.IsDir(root) ==> r == Err(AssertionError(root))
    ensures fs.IsDir(root) && !rsync ==> r == Err(AssertionError(RsyncMissing))
    ensures r.Ok? ==> r.value.files == fs.files && r.value.dirs.Keys == fs.dirs.Keys &&
                      (forall p :: p in fs.dirs && p != saltRoot ==> r.value.dirs[p] == fs.dirs[p]) &&
                      r.value.dirs[saltRoot] == Merge(fs.dirs[saltRoot], RenderedTree(fs.dirs[root], JinjaEnvFor(tmp), vars, engine))
  {
    if !fs.IsDir(root) then Err(AssertionError(root))
    else if !rsync then Err(AssertionError(RsyncMissing))
    else if !fs.IsDir(saltRoot) then Err(LockError(fs, saltRoot))
    else
      var rendered := RenderedTree(fs.dirs[root], JinjaEnvFor(tmp), vars, engine);
      Ok(fs.(dirs := fs.dirs[saltRoot := Merge(fs.dirs[saltRoot], rendered)]))
  }

  /** `render_all(template_roots, salt_root)`: the roots in order, stopping
      at the first exception; roots merged before it stay merged.  Only the
      salt root's entry ever changes. */
  function RenderAllSpec(fs: Snapshot, roots: seq<Path>, saltRoot: Path, tmp: Path, engine: Engine, rsync: bool)
    : (r: Step<Snapshot>)
    ensures r.state.files == fs.files && r.state.dirs.Keys == fs.dirs.Keys
    ensures forall p :: p in fs.dirs && p != saltRoot ==> r.state.dirs[p] == fs.dirs[p]
    ensures roots == [] ==> r == Step(fs, None)
    decreases |roots|
  {
    if roots == [] then Step(fs, None)
    else
      match RenderOne(fs, roots[0], saltRoot, tmp, TemplateVars(saltRoot), engine, rsync)
      case Err(e) => Step(fs, Some(e))
      case Ok(s) => RenderAllSpec(s, roots[1..], saltRoot, tmp, engine, rsync)
  }

  /** The rendered trees of `roots`, in order. */
  function Layers(fs: Snapshot, roots: seq<Path>, tmp: Path, vars: Vars, engine: Engine): (ls: seq<Tree>)
    requires forall r :: r in roots ==> fs.IsDir(r)
    ensures |ls| == |roots|
  {
    if roots == [] then []
    else
      var r0 := roots[0];
      assert r0 in roots && fs.IsDir(r0);
      [RenderedTree(fs.dirs[r0], JinjaEnvFor(tmp), vars, engine)] + Layers(fs, roots[1..], tmp, vars, engine)
  }

  /** A destination tree after merging `layers` one after the other. */
  function Stack(base: Tree, layers: seq<Tree>): Tree
    decreases |layers|
  {
    if layers == [] then base else Stack(Merge(base, layers[0]), layers[1..])
  }

  lemma LayersFrame(fs: Snapshot, fs': Snapshot, roots: seq<Path>, tmp: Path, vars: Vars, engine: Engine)
    requires forall r :: r in roots ==> fs.IsDir(r) && fs'.IsDir(r) && fs.dirs[r] == fs'.dirs[r]
    ensures Layers(fs, roots, tmp, vars, engine) == Layers(fs', roots, tmp, vars, engine)
  {
  }

  /** One step of `render_all` that succeeds. */
  lemma RenderAllUnfold(fs: Snapshot, roots: seq<Path>, saltRoot: Path, tmp: Path, engine: Engine)
    requires roots != [] && fs.IsDir(roots[0]) && fs.IsDir(saltRoot)
    ensures var first := RenderedTree(fs.dirs[roots[0]], JinjaEnvFor(tmp), TemplateVars(saltRoot), engine);
            var s := fs.(dirs := fs.dirs[saltRoot := Merge(fs.dirs[saltRoot], first)]);
            RenderAllSpec(fs, roots, saltRoot, tmp, engine, true) == RenderAllSpec(s, roots[1..], saltRoot, tmp, engine, true)
  {
  }

  /** The first layer, and the others read after the first merge, which
      leaves every root but the salt root as it was. */
  lemma LayersAfterMerge(fs: Snapshot, roots: seq<Path>, saltRoot: Path, merged: Tree, tmp: Path, vars: Vars, engine: Engine)
    requires roots != [] && saltRoot !in roots && fs.IsDir(roots[0])
    requires forall r :: r in roots ==> fs.IsDir(r)
    ensures var s := fs.(dirs := fs.dirs[saltRoot := merged]);
            saltRoot !in roots[1..] && (forall r :: r in roots[1..] ==> s.IsDir(r)) &&
            Layers(fs, roots, tmp, vars, engine)
              == [RenderedTree(fs.dirs[roots[0]], JinjaEnvFor(tmp), vars, engine)] + Layers(s, roots[1..], tmp, vars, engine)
  {
    var s := fs.(dirs := fs.dirs[saltRoot := merged]);
    assert roots[0] in roots;
    assert forall r :: r in roots[1..] ==> r in roots;
    LayersFrame(fs, s, roots[1..], tmp, vars, engine);
  }

  /** Replacing the same entry twice. */
  lemma UpdateTwice(fs: Snapshot, p: Path, a: Tree, b: Tree)
    ensures var s := fs.(dirs := fs.dirs[p := a]);
            s.(dirs := s.dirs[p := b]) == fs.(dirs := fs.dirs[p := b])
  {
    var s := fs.(dirs := fs.dirs[p := a]);
    assert s.dirs[p := b] == fs.dirs[p := b];
  }

  /** With rsync present, an existing salt root that is not itself a template
      root, and every root a directory, `render_all` succeeds and leaves the
      salt root as its old contents with every rendered root merged over
      them, in registry order; nothing else changes. */
  lemma {:induction false} RenderAllIsOverlay(fs: Snapshot, roots: seq<Path>, saltRoot: Path, tmp: Path, engine: Engine)
    requires fs.IsDir(saltRoot) && saltRoot !in roots
    requires forall r :: r in roots ==> fs.IsDir(r)
    ensures RenderAllSpec(fs, roots, saltRoot, tmp, engine, true)
         == Step(fs.(dirs := fs.dirs[saltRoot := Stack(fs.dirs[saltRoot], Layers(fs, roots, tmp, TemplateVars(saltRoot), engine))]), None)
    decreases |roots|
  {
    var vars := TemplateVars(saltRoot);
    if roots == [] {
      assert fs.(dirs := fs.dirs[saltRoot := fs.dirs[saltRoot]]) == fs;
    } else {
      assert roots[0] in roots;
      var merged := Merge(fs.dirs[saltRoot], RenderedTree(fs.dirs[roots[0]], JinjaEnvFor(tmp), vars, engine));
      var s := fs.(dirs := fs.dirs[saltRoot := merged]);
      RenderAllUnfold(fs, roots, saltRoot, tmp, engine);
      LayersAfterMerge(fs, roots, saltRoot, merged, tmp, vars, engine);
      RenderAllIsOverlay(s, roots[1..], saltRoot, tmp, engine);
      UpdateTwice(fs, saltRoot, merged, Stack(merged, Layers(s, roots[1..], tmp, vars, engine)));
    }
  }

  /** `render_all` raises exactly when there is a root to render and rsync
      is missing, the salt root is not a directory, or some root is not. */
  lemma {:induction false} RenderAllFailsIff(fs: Snapshot, roots: seq<Path>, saltRoot: Path, tmp: Path, engine: Engine, rsync: bool)
    requires saltRoot !in roots
    ensures RenderAllSpec(fs, roots, saltRoot, tmp, engine, rsync).err.Some? <==>
            roots != [] && (!rsync || !fs.IsDir(saltRoot) || exists r :: r in roots && !fs.IsDir(r))
    decreases |roots|
  {
    if roots != [] {
      var one := RenderOne(fs, roots[0], saltRoot, tmp, TemplateVars(saltRoot), engine, rsync);
      var rest := roots[1..];
      assert forall r :: r in rest ==> r in roots;
      if one.Ok? {
        var s := one.value;
        RenderAllFailsIff(s, rest, saltRoot, tmp, engine, rsync);
        assert forall r :: r in rest ==> (s.IsDir(r) <==> fs.IsDir(r));
        assert (exists r :: r in roots && !fs.IsDir(r)) <==> (exists r :: r in rest && !fs.IsDir(r)) by {
          if exists r :: r in roots && !fs.IsDir(r) {
            var r :| r in roots && !fs.IsDir(r);
            assert r != roots[0];
            assert r in rest by {
              var k :| 0 <= k < |roots| && roots[k] == r;
              assert k > 0 && rest[k - 1] == r;
            }
          }
        }
      } else {
        assert roots[0] in roots;
      }
    }
  }

  /** Merging a stack of layers is overriding the base with one map. */
  lemma {:induction false} StackIsOverride(base: Tree, layers: seq<Tree>)
    ensures Stack(base, layers) == base + Stack(map[], layers)
    decreases |layers|
  {
    if layers != [] {
      var m := Merge(base, layers[0]);
      StackIsOverride(m, layers[1..]);
      StackIsOverride(Merge(map[], layers[0]), layers[1..]);
      MergeIsOverride(base, layers[0]);
      OverrideAssociates(base, Merge(map[], layers[0]), Stack(map[], layers[1..]));
    }
  }

  lemma MergeIsOverride(base: Tree, layer: Tree)
    ensures Merge(base, layer) == base + Merge(map[], layer)
  {
  }

  lemma OverrideAssociates(a: Tree, b: Tree, c: Tree)
    ensures a + (b + c) == (a + b) + c
  {
  }

  /** The last layer that holds a path decides its entry. */
  lemma {:induction false} StackLastWins(base: Tree, layers: seq<Tree>, k: nat, rel: RelPath)
    requires k < |layers| && rel in layers[k] && rel != LockName
    requires forall j :: k < j < |layers| ==> rel !in layers[j]
    ensures rel in Stack(base, layers) && Stack(base, layers)[rel] == layers[k][rel]
    decreases |layers|
  {
    if k == 0 {
      StackKeeps(Merge(base, layers[0]), layers[1..], rel);
    } else {
      StackLastWins(Merge(base, layers[0]), layers[1..], k - 1, rel);
    }
  }

  /** A path no layer holds keeps its entry, and no path is ever removed. */
  lemma {:induction false} StackKeeps(base: Tree, layers: seq<Tree>, rel: RelPath)
    requires rel in base
    ensures rel in Stack(base, layers)
    ensures rel != LockName && (forall j :: 0 <= j < |layers| ==> rel !in layers[j]) ==> Stack(base, layers)[rel] == base[rel]
    decreases |layers|
  {
    if layers != [] {
      MergeOverlays(base, layers[0]);
      StackKeeps(Merge(base, layers[0]), layers[1..], rel);
    }
  }

  /** Merging the same layers a second time changes nothing. */
  lemma StackIdempotent(base: Tree, layers: seq<Tree>)
    ensures Stack(Stack(base, layers), layers) == Stack(base, layers)
  {
    var top := Stack(map[], layers);
    StackIsOverride(base, layers);
    StackIsOverride(base + top, layers);
    assert (base + top) + top == base + top;
  }

  /** Refreshing twice is refreshing once, as long as the salt root is not
      itself a template root. */
  lemma RenderAllIdempotent(fs: Snapshot, roots: seq<Path>, saltRoot: Path, tmp: Path, engine: Engine)
    requires fs.IsDir(saltRoot) && saltRoot !in roots
    requires forall r :: r in roots ==> fs.IsDir(r)
    ensures var once := RenderAllSpec(fs, roots, saltRoot, tmp, engine, true);
            RenderAllSpec(once.state, roots, saltRoot, tmp, engine, true) == once
  {
    RenderAllIsOverlay(fs, roots, saltRoot, tmp, engine);
    var layers := Layers(fs, roots, tmp, TemplateVars(saltRoot), engine);
    RefreshOverlaid(fs, fs.(dirs := fs.dirs[saltRoot := Stack(fs.dirs[saltRoot], layers)]), roots, saltRoot, tmp, engine);
  }

  /** A salt root already overlaid with every rendered root is left as it is
      by another refresh. */
  lemma RefreshOverlaid(fs: Snapshot, s: Snapshot, roots: seq<Path>, saltRoot: Path, tmp: Path, engine: Engine)
    requires fs.IsDir(saltRoot) && saltRoot !in roots
    requires forall r :: r in roots ==> fs.IsDir(r)
    requires s == fs.(dirs := fs.dirs[saltRoot := Stack(fs.dirs[saltRoot], Layers(fs, roots, tmp, TemplateVars(saltRoot), engine))])
    ensures RenderAllSpec(s, roots, saltRoot, tmp, engine, true) == Step(s, None)
  {
    var vars := TemplateVars(saltRoot);
    var layers := Layers(fs, roots, tmp, vars, engine);
    OverlaidKeepsRoots(fs, s, roots, saltRoot, layers);
    LayersFrame(fs, s, roots, tmp, vars, engine);
    RenderAllIsOverlay(s, roots, saltRoot, tmp, engine);
    StackIdempotent(fs.dirs[saltRoot], layers);
    assert s.dirs[saltRoot := Stack(s.dirs[saltRoot], layers)] == s.dirs;
  }

  lemma OverlaidKeepsRoots(fs: Snapshot, s: Snapshot, roots: seq<Path>, saltRoot: Path, layers: seq<Tree>)
    requires fs.IsDir(saltRoot) && saltRoot !in roots
    requires forall r :: r in roots ==> fs.IsDir(r)
    requires s == fs.(dirs := fs.dirs[saltRoot := Stack(fs.dirs[saltRoot], layers)])
    ensures s.IsDir(saltRoot) && s.dirs[saltRoot] == Stack(fs.dirs[saltRoot], layers)
    ensures forall r :: r in roots ==> s.IsDir(r) && s.dirs[r] == fs.dirs[r]
  {
  }

  /** `_merge(tmp_dir, dst_root)`. */
  method MergeOn(fs: FileSystem, tmpDir: Path, dstRoot: Path, rsync: bool) returns (err: Option<Error>)
    requires tmpDir in fs.dirs
    modifies fs
    ensures fs.files == old(fs.files)
    ensures !rsync ==> err == Some(AssertionError(RsyncMissing)) && fs.dirs == old(fs.dirs)
    ensures rsync && !old(fs.Snap()).IsDir(dstRoot) ==> err == Some(LockError(old(fs.Snap()), dstRoot)) && fs.dirs == old(fs.dirs)
    ensures rsync && old(fs.Snap()).IsDir(dstRoot) ==>
              err.None? && fs.dirs == old(fs.dirs)[dstRoot := Merge(old(fs.dirs[dstRoot]), old(fs.dirs[tmpDir]))]
  {
    if !rsync {
      return Some(AssertionError(RsyncMissing));
    }
    if dstRoot !in fs.dirs {
      return Some(LockError(fs.Snap(), dstRoot));
    }
    fs.dirs := fs.dirs[dstRoot := Merge(fs.dirs[dstRoot], fs.dirs[tmpDir])];
    return None;
  }

  /** Copying a root into the fresh, empty scratch directory. */
  lemma CopyIntoScratch(s0: Snapshot, root: Path, tmp: Path)
    requires tmp !in s0.dirs && tmp != root
    ensures var c := CopyTreeInto(s0.(dirs := s0.dirs[tmp := map[]]), root, tmp);
            (c.Ok? <==> s0.IsDir(root)) && (c.Err? ==> c.error == AssertionError(root)) &&
            (c.Ok? ==> c.value == s0.(dirs := s0.dirs[tmp := s0.dirs[root]]))
  {
    if s0.IsDir(root) {
      assert map[] + s0.dirs[root] == s0.dirs[root];
    }
  }

  /** Removing the scratch directory again. */
  lemma ScratchRemoved(dirs: map<Path, Tree>, tmp: Path, scratch: Tree)
    requires tmp !in dirs
    ensures dirs[tmp := scratch] - {tmp} == dirs
  {
  }

  /** Removing the scratch directory after the merge. */
  lemma MergedScratchRemoved(dirs: map<Path, Tree>, tmp: Path, scratch: Tree, saltRoot: Path, merged: Tree)
    requires tmp !in dirs && tmp != saltRoot
    ensures dirs[tmp := scratch][saltRoot := merged] - {tmp} == dirs[saltRoot := merged]
  {
  }

  /** `render_one`, inside `tempfile.TemporaryDirectory()` named `tmp`. */
  method RenderOneOn(fs: FileSystem, root: Path, saltRoot: Path, tmp: Path, vars: Vars, engine: Engine, rsync: bool)
    returns (err: Option<Error>)
    requires tmp !in fs.dirs && tmp !in fs.files && tmp != root && tmp != saltRoot
    modifies fs
    ensures var r := RenderOne(old(fs.Snap()), root, saltRoot, tmp, vars, engine, rsync);
            if r.Ok? then err.None? && fs.Snap() == r.value else err == Some(r.error) && fs.Snap() == old(fs.Snap())
  {
    ghost var s0 := fs.Snap();
    CopyIntoScratch(s0, root, tmp);
    assert NormalizeVars(Some(vars)) == vars;
    fs.dirs := fs.dirs[tmp := map[]];
    var rendered, _ := RenderToPath(fs, root, tmp, Some(vars), engine);
    if rendered.Err? {
      ScratchRemoved(s0.dirs, tmp, map[]);
      fs.dirs := fs.dirs - {tmp};
      return Some(rendered.error);
    }
    ghost var scratch := RenderedTree(s0.dirs[root], JinjaEnvFor(tmp), vars, engine);
    assert fs.dirs == s0.dirs[tmp := scratch];
    ScratchRemoved(s0.dirs, tmp, scratch);
    if saltRoot in s0.dirs {
      MergedScratchRemoved(s0.dirs, tmp, scratch, saltRoot, Merge(s0.dirs[saltRoot], scratch));
    }
    err := MergeOn(fs, tmp, saltRoot, rsync);
    fs.dirs := fs.dirs - {tmp};
  }

  /** `render_all`: every root in registry order, stopping at the first
      exception. */
  method RenderAll(fs: FileSystem, roots: seq<Path>, saltRoot: Path, tmp: Path, engine: Engine, rsync: bool)
    returns (err: Option<Error>)
    requires tmp !in fs.dirs && tmp !in fs.files && tmp !in roots && tmp != saltRoot
    modifies fs
    ensures Step(fs.Snap(), err) == RenderAllSpec(old(fs.Snap()), roots, saltRoot, tmp, engine, rsync)
  {
    var vars := TemplateVars(saltRoot);
    var i := 0;
    while i < |roots|
      invariant 0 <= i <= |roots|
      invariant tmp !in fs.dirs && tmp !in fs.files
      invariant RenderAllSpec(fs.Snap(), roots[i..], saltRoot, tmp, engine, rsync)
             == RenderAllSpec(old(fs.Snap()), roots, saltRoot, tmp, engine, rsync)
    {
      assert roots[i..][0] == roots[i] && roots[i..][1..] == roots[i + 1..];
      err := RenderOneOn(fs, roots[i], saltRoot, tmp, vars, engine, rsync);
      if err.Some? {
        return;
      }
      i := i + 1;
    }
    return None;
  }

  /** `TemplateRenderer.__enter__`: load the registry, then render every
      registered root into the configured salt root. */
  method Refresh(fs: FileSystem, ns: BoxConfig.Namespace, tmp: Path, engine: Engine, rsync: bool)
    returns (err: Option<Error>)
    requires BoxConfig.WellTyped(ns)
    requires tmp !in fs.dirs && tmp !in fs.files && tmp != BoxConfig.SaltRootPath(ns)
    requires var reg := Registries.FromFile(fs.Snap(), BoxConfig.SaltboxRegistryPath(ns));
             reg.Ok? ==> tmp !in reg.value
    modifies fs
    ensures var reg := Registries.FromFile(old(fs.Snap()), BoxConfig.SaltboxRegistryPath(ns));
            if reg.Err? then err == Some(reg.error) && fs.Snap() == old(fs.Snap())
            else Step(fs.Snap(), err) == RenderAllSpec(old(fs.Snap()), reg.value, BoxConfig.SaltRootPath(ns), tmp, engine, rsync)
  {
    var reg := Registries.FromFile(fs.Snap(), BoxConfig.SaltboxRegistryPath(ns));
    if reg.Err? {
      return Some(reg.error);
    }
    err := RenderAll(fs, reg.value, BoxConfig.SaltRootPath(ns), tmp, engine, rsync);
  }
}
