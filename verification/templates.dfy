/** Recipe templates (src/saltbox/template.py): a source tree is copied into a
    destination directory, and every regular file the recursive glob of the root finds
    there is rendered in place by the template engine, best effort: a file
    whose rendering raises keeps its copied content and yields a warning.
    The engine itself is a parameter, a partial function from the
    environment, the file's relative path, its text and the variables to the
    rendered text. */
module Templates {
  import opened Common
  import opened Paths
  import opened Disk

  /** Jinja2's stock markers, which recipes may contain as plain text. */
  const DefaultBlockStart: string := "{%"
  const DefaultBlockEnd: string := "%}"
  const DefaultVariableStart: string := "{{"
  const DefaultVariableEnd: string := "}}"
  const DefaultCommentStart: string := "{#"
  const DefaultCommentEnd: string := "#}"

  /** The configuration `RecipeTemplate.jinja_env` builds. */
  datatype JinjaEnv = JinjaEnv(
    loaderRoot: Path,
    blockStart: string, blockEnd: string,
    variableStart: string, variableEnd: string,
    commentStart: string, commentEnd: string)

  /** `RecipeTemplate(root).jinja_env`: a loader rooted at `root` and the
      remapped delimiters `((* *))`, `{{$ $}}` and `((= =))`. */
  function JinjaEnvFor(root: Path): (env: JinjaEnv)
    ensures env.loaderRoot == root
    ensures env.variableStart == DefaultVariableStart + "$" && env.variableEnd == "$" + DefaultVariableEnd
    ensures |env.blockStart| == |env.blockEnd| == |env.commentStart| == |env.commentEnd| == 3
    ensures env.blockStart[..2] == env.commentStart[..2] == "((" && env.blockEnd[1..] == env.commentEnd[1..] == "))"
    ensures env.blockStart != env.commentStart && env.blockEnd != env.commentEnd
    ensures var defaults := {DefaultBlockStart, DefaultBlockEnd, DefaultVariableStart, DefaultVariableEnd,
                             DefaultCommentStart, DefaultCommentEnd};
            env.blockStart !in defaults && env.blockEnd !in defaults && env.variableStart !in defaults &&
            env.variableEnd !in defaults && env.commentStart !in defaults && env.commentEnd !in defaults
  {
    JinjaEnv(root, "((*", "*))", "{{$", "$}}", "((=", "=))")
  }

  type Vars = map<string, string>

  /** The template engine: `env.get_template(rel).render(**vars)`, or `None`
      when it raises. */
  type Engine = (JinjaEnv, RelPath, Content, Vars) -> Option<Content>

  /** Whether the recursive glob of the root yields `rel`: it skips every path
      with a component that starts with a dot. */
  predicate Globbed(rel: RelPath)
  {
    !(rel != [] && rel[0] == '.') &&
    forall i :: 0 <= i < |rel| - 1 && rel[i] == '/' ==> rel[i + 1] != '.'
  }

  /** A relative path is globbed exactly when both halves on either side of
      a separator are: one hidden component anywhere excludes the path. */
  lemma GlobbedJoin(a: RelPath, b: RelPath)
    ensures Globbed(a + "/" + b) <==> Globbed(a) && Globbed(b)
  {
    var r := a + "/" + b;
    assert forall i :: 0 <= i < |a| ==> r[i] == a[i];
    assert r[|a|] == '/';
    assert forall i :: 0 <= i < |b| ==> r[|a| + 1 + i] == b[i];
    if Globbed(r) {
      forall i | 0 <= i < |a| - 1 && a[i] == '/' ensures a[i + 1] != '.' {
        assert r[i] == '/';
      }
      if b != [] {
        assert r[|a| + 1] == b[0];
      }
      forall i | 0 <= i < |b| - 1 && b[i] == '/' ensures b[i + 1] != '.' {
        assert r[|a| + 1 + i] == '/';
      }
    }
    if Globbed(a) && Globbed(b) {
      forall i | 0 <= i < |r| - 1 && r[i] == '/' ensures r[i + 1] != '.' {
        if i < |a| - 1 {
          assert a[i] == '/';
        } else if i == |a| - 1 {
          assert r[i + 1] == '/';
        } else if i == |a| {
          assert r[i + 1] == b[0];
        } else {
          assert b[i - |a| - 1] == '/';
        }
      }
    }
  }

  /** A glob match that `os.path.isfile` accepts: the files that get rendered. */
  predicate Candidate(rel: RelPath, e: Entry)
  {
    Globbed(rel) && e.File?
  }

  /** The entry after `_render_one_inplace`, for candidates, or as copied. */
  function RenderEntry(env: JinjaEnv, rel: RelPath, e: Entry, vars: Vars, engine: Engine): Entry
  {
    if Candidate(rel, e) then
      match engine(env, rel, e.data, vars)
      case Some(out) => File(out)
      case None => e
    else e
  }

  /** The tree `_render_inplace` leaves behind. */
  function RenderedTree(t: Tree, env: JinjaEnv, vars: Vars, engine: Engine): Tree
  {
    map rel | rel in t :: RenderEntry(env, rel, t[rel], vars, engine)
  }

  /** The files whose rendering raised, one warning each. */
  function Failures(t: Tree, env: JinjaEnv, vars: Vars, engine: Engine): set<RelPath>
  {
    set rel | rel in t && Candidate(rel, t[rel]) && engine(env, rel, t[rel].data, vars).None?
  }

  /** Rendering is per file and best effort: no path appears or disappears,
      directories, hidden paths and failed files keep their copied entry,
      every other file is replaced wholesale by the engine's output, and the
      warnings are exactly the failed files. */
  lemma RenderIsolation(t: Tree, env: JinjaEnv, vars: Vars, engine: Engine, rel: RelPath)
    requires rel in t
    ensures var r := RenderedTree(t, env, vars, engine);
            r.Keys == t.Keys &&
            (!Candidate(rel, t[rel]) ==> r[rel] == t[rel]) &&
            (rel in Failures(t, env, vars, engine) ==> r[rel] == t[rel]) &&
            (Candidate(rel, t[rel]) && rel !in Failures(t, env, vars, engine) ==>
               r[rel] == File(engine(env, rel, t[rel].data, vars).value))
  {
  }

  /** `render_to_path` turns a missing or empty variable mapping into `{}`. */
  function NormalizeVars(vars: Option<Vars>): (v: Vars)
    ensures vars.Some? && vars.value != map[] ==> v == vars.value
    ensures vars.None? || vars.value == map[] ==> v == map[]
  {
    if vars.None? || vars.value == map[] then map[] else vars.value
  }

  /** `TemplateSync.copy_tree(src, dst)`: both must exist and be directories;
      `distutils` then copies the source over the destination's contents. */
  function CopyTreeInto(fs: Snapshot, src: Path, dst: Path): (r: Result<Snapshot>)
    ensures r.Ok? <==> fs.IsDir(src) && fs.IsDir(dst)
    ensures !fs.IsDir(src) ==> r == Err(AssertionError(src))
    ensures fs.IsDir(src) && !fs.IsDir(dst) ==> r == Err(AssertionError(dst))
    ensures r.Ok? ==> r.value.files == fs.files && r.value.dirs.Keys == fs.dirs.Keys &&
                      r.value.dirs[dst].Keys == fs.dirs[dst].Keys + fs.dirs[src].Keys &&
                      (forall rel :: rel in fs.dirs[src] ==> r.value.dirs[dst][rel] == fs.dirs[src][rel]) &&
                      (forall rel :: rel in fs.dirs[dst] && rel !in fs.dirs[src] ==> r.value.dirs[dst][rel] == fs.dirs[dst][rel]) &&
                      (forall p :: p in fs.dirs && p != dst ==> r.value.dirs[p] == fs.dirs[p])
  {
    if !fs.Exists(src) || !fs.IsDir(src) then Err(AssertionError(src))
    else if !fs.Exists(dst) || !fs.IsDir(dst) then Err(AssertionError(dst))
    else Ok(fs.(dirs := fs.dirs[dst := fs.dirs[dst] + fs.dirs[src]]))
  }

  method CopyTreeIntoOn(fs: FileSystem, src: Path, dst: Path) returns (err: Option<Error>)
    modifies fs
    ensures var r := CopyTreeInto(old(fs.Snap()), src, dst);
            if r.Ok? then err.None? && fs.Snap() == r.value else err == Some(r.error) && fs.Snap() == old(fs.Snap())
  {
    if src !in fs.dirs {
      return Some(AssertionError(src));
    }
    if dst !in fs.dirs {
      return Some(AssertionError(dst));
    }
    fs.dirs := fs.dirs[dst := fs.dirs[dst] + fs.dirs[src]];
    return None;
  }

  /** A tree with the files in `done` rendered and the others as copied. */
  ghost function PartlyRendered(t: Tree, done: set<RelPath>, env: JinjaEnv, vars: Vars, engine: Engine): Tree
  {
    map rel | rel in t :: if rel in done then RenderEntry(env, rel, t[rel], vars, engine) else t[rel]
  }

  /** The files in `done` whose rendering raised. */
  ghost function Warned(t: Tree, done: set<RelPath>, env: JinjaEnv, vars: Vars, engine: Engine): set<RelPath>
  {
    set rel | rel in done && rel in t && t[rel].File? && engine(env, rel, t[rel].data, vars).None?
  }

  /** Rendering one more candidate file. */
  lemma RenderStep(t: Tree, done: set<RelPath>, rel: RelPath, env: JinjaEnv, vars: Vars, engine: Engine)
    requires rel in t && Candidate(rel, t[rel]) && rel !in done
    ensures var before := PartlyRendered(t, done, env, vars, engine);
            var out := engine(env, rel, t[rel].data, vars);
            rel in before && before[rel] == t[rel] &&
            (out.None? ==> PartlyRendered(t, done + {rel}, env, vars, engine) == before &&
                           Warned(t, done + {rel}, env, vars, engine) == Warned(t, done, env, vars, engine) + {rel}) &&
            (out.Some? ==> PartlyRendered(t, done + {rel}, env, vars, engine) == before[rel := File(out.value)] &&
                           Warned(t, done + {rel}, env, vars, engine) == Warned(t, done, env, vars, engine))
  {
    var before := PartlyRendered(t, done, env, vars, engine);
    var after := PartlyRendered(t, done + {rel}, env, vars, engine);
    if engine(env, rel, t[rel].data, vars).None? {
      assert after == before;
    } else {
      assert after == before[rel := RenderEntry(env, rel, t[rel], vars, engine)];
    }
  }

  /** Once every candidate is done, the tree is rendered and the warnings
      are the failures. */
  lemma RenderDone(t: Tree, done: set<RelPath>, env: JinjaEnv, vars: Vars, engine: Engine)
    requires forall rel :: rel in t && Candidate(rel, t[rel]) <==> rel in done
    ensures PartlyRendered(t, done, env, vars, engine) == RenderedTree(t, env, vars, engine)
    ensures Warned(t, done, env, vars, engine) == Failures(t, env, vars, engine)
  {
  }

  /** `RecipeTemplate(root)`: renders the files under `root` in place. */
  class RecipeTemplate {
    const root: Path

    constructor (root: Path)
      ensures this.root == root
    {
      this.root := root;
    }

    /** `_render_one_inplace`: render one file, or warn and leave it. */
    method RenderOneInPlace(fs: FileSystem, rel: RelPath, vars: Vars, engine: Engine) returns (warned: bool)
      requires root in fs.dirs && rel in fs.dirs[root] && fs.dirs[root][rel].File?
      modifies fs
      ensures var out := engine(JinjaEnvFor(root), rel, old(fs.dirs[root][rel].data), vars);
              warned == out.None? && fs.files == old(fs.files) &&
              fs.dirs == if out.None? then old(fs.dirs)
                         else old(fs.dirs)[root := old(fs.dirs[root])[rel := File(out.value)]]
    {
      var out := engine(JinjaEnvFor(root), rel, fs.dirs[root][rel].data, vars);
      if out.None? {
        return true;
      }
      fs.dirs := fs.dirs[root := fs.dirs[root][rel := File(out.value)]];
      return false;
    }

    /** `render` / `_render_inplace`: every candidate file, one at a time. */
    method Render(fs: FileSystem, vars: Vars, engine: Engine) returns (warnings: set<RelPath>)
      modifies fs
      ensures fs.files == old(fs.files)
      ensures root !in old(fs.dirs) ==> fs.dirs == old(fs.dirs) && warnings == {}
      ensures root in old(fs.dirs) ==>
                fs.dirs == old(fs.dirs)[root := RenderedTree(old(fs.dirs[root]), JinjaEnvFor(root), vars, engine)] &&
                warnings == Failures(old(fs.dirs[root]), JinjaEnvFor(root), vars, engine)
    {
      if root !in fs.dirs {
        return {};
      }
      var env := JinjaEnvFor(root);
      ghost var t0 := fs.dirs[root];
      var pending := set rel | rel in fs.dirs[root] && Candidate(rel, fs.dirs[root][rel]);
      ghost var done: set<RelPath> := {};
      warnings := {};
      assert PartlyRendered(t0, done, env, vars, engine) == t0;
      while pending != {}
        invariant pending <= t0.Keys && done !! pending
        invariant forall rel :: rel in t0 && Candidate(rel, t0[rel]) <==> rel in pending || rel in done
        invariant fs.files == old(fs.files)
        invariant fs.dirs == old(fs.dirs)[root := PartlyRendered(t0, done, env, vars, engine)]
        invariant warnings == Warned(t0, done, env, vars, engine)
        decreases pending
      {
        var rel :| rel in pending;
        RenderStep(t0, done, rel, env, vars, engine);
        var warned := RenderOneInPlace(fs, rel, vars, engine);
        if warned {
          warnings := warnings + {rel};
        }
        done := done + {rel};
        pending := pending - {rel};
      }
      RenderDone(t0, done, env, vars, engine);
    }
  }

  /** `RecipeTemplate.render_to_path`: copy, render the copy, return `dst`. */
  method RenderToPath(fs: FileSystem, src: Path, dst: Path, vars: Option<Vars>, engine: Engine)
    returns (r: Result<Path>, warnings: set<RelPath>)
    modifies fs
    ensures var copied := CopyTreeInto(old(fs.Snap()), src, dst);
            if copied.Err? then r == Err(copied.error) && fs.Snap() == old(fs.Snap()) && warnings == {}
            else
              var t := copied.value.dirs[dst];
              r == Ok(dst) && fs.files == old(fs.files) &&
              fs.dirs == copied.value.dirs[dst := RenderedTree(t, JinjaEnvFor(dst), NormalizeVars(vars), engine)] &&
              warnings == Failures(t, JinjaEnvFor(dst), NormalizeVars(vars), engine)
  {
    var v := NormalizeVars(vars);
    var err := CopyTreeIntoOn(fs, src, dst);
    if err.Some? {
      return Err(err.value), {};
    }
    var template := new RecipeTemplate(dst);
    warnings := template.Render(fs, v, engine);
    return Ok(dst), warnings;
  }
}
