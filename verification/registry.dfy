/** The template-root registry (`Registry` in src/saltbox/api.py): an ordered,
    duplicate-free list of absolute directory paths, loaded from and saved to
    a line-oriented text file. */
module Registries {
  import opened Common
  import opened Paths
  import opened Disk

  // ---------------------------------------------------------------------
  // Characters

  /** Line terminators under Python's universal-newline reading. */
  predicate IsLineBreak(c: char)
  {
    c == '\n' || c == '\r'
  }

  /** The characters Python's `str.isspace` accepts, which `str.strip()` removes. */
  predicate IsSpace(c: char)
  {
    ('\t' <= c <= '\r') || ('\U{1c}' <= c <= '\U{1f}') || c == ' ' || c == '\U{85}' ||
    c == '\U{a0}' || c == '\U{1680}' || ('\U{2000}' <= c <= '\U{200a}') ||
    c == '\U{2028}' || c == '\U{2029}' || c == '\U{202f}' || c == '\U{205f}' || c == '\U{3000}'
  }

  /** Every character of `s` before index `i` and from index `j` on is
      whitespace. */
  predicate SpaceOutside(s: string, i: int, j: int)
  {
    (forall k :: 0 <= k < i && k < |s| ==> IsSpace(s[k])) && (forall k :: 0 <= j <= k < |s| ==> IsSpace(s[k]))
  }

  /** `r` is the part of `s` that starts at index `i`, with only whitespace
      around it. */
  predicate StrippedAt(s: string, r: string, i: int)
  {
    0 <= i && i + |r| <= |s| && r == s[i..i + |r|] && SpaceOutside(s, i, i + |r|)
  }

  predicate NoLineBreak(s: string)
  {
    forall i :: 0 <= i < |s| ==> !IsLineBreak(s[i])
  }

  /** A root that survives a save and a load unchanged: non-empty, on one
      line, with no whitespace at either end. */
  predicate WellFormedRoot(r: Path)
  {
    r != [] && NoLineBreak(r) && !IsSpace(r[0]) && !IsSpace(r[|r| - 1])
  }

  // ---------------------------------------------------------------------
  // `str.strip()`

  function TrimStart(s: string): (r: string)
    ensures |r| <= |s| && r == s[|s| - |r|..]
    ensures forall k :: 0 <= k < |s| - |r| ==> IsSpace(s[k])
    ensures r == [] || !IsSpace(r[0])
    ensures s != [] && !IsSpace(s[0]) ==> r == s
  {
    if s != [] && IsSpace(s[0]) then
      var r := TrimStart(s[1..]);
      assert forall k :: 1 <= k < |s| ==> s[k] == s[1..][k - 1];
      r
    else s
  }

  function TrimEnd(s: string): (r: string)
    ensures |r| <= |s| && r == s[..|r|]
    ensures forall k :: |r| <= k < |s| ==> IsSpace(s[k])
    ensures r == [] || !IsSpace(r[|r| - 1])
    ensures s != [] && !IsSpace(s[|s| - 1]) ==> r == s
  {
    if s != [] && IsSpace(s[|s| - 1]) then TrimEnd(s[..|s| - 1]) else s
  }

  /** `s.strip()`: the infix of `s` left once the whitespace at both ends is
      removed. */
  function Strip(s: string): (r: string)
    ensures |r| <= |s|
    ensures exists i :: StrippedAt(s, r, i)
    ensures NoLineBreak(s) ==> NoLineBreak(r)
    ensures r == [] || (!IsSpace(r[0]) && !IsSpace(r[|r| - 1]))
    ensures s != [] && !IsSpace(s[0]) && !IsSpace(s[|s| - 1]) ==> r == s
  {
    TrimmedEnds(s);
    TrimmedInfix(s);
    TrimmedKeeps(s);
    TrimmedNoLineBreak(s);
    TrimEnd(TrimStart(s))
  }

  lemma TrimmedEnds(s: string)
    ensures var r := TrimEnd(TrimStart(s));
            r == [] || (!IsSpace(r[0]) && !IsSpace(r[|r| - 1]))
  {
    var t := TrimStart(s);
    var r := TrimEnd(t);
    assert r != [] ==> r[0] == t[0];
  }

  lemma TrimmedInfix(s: string)
    ensures exists i :: StrippedAt(s, TrimEnd(TrimStart(s)), i)
  {
    var t := TrimStart(s);
    var r := TrimEnd(t);
    var i := |s| - |t|;
    assert r == s[i..i + |r|];
    forall k | i + |r| <= k < |s|
      ensures IsSpace(s[k])
    {
      assert s[k] == t[k - i];
    }
    assert StrippedAt(s, r, i);
  }

  lemma TrimmedKeeps(s: string)
    ensures s != [] && !IsSpace(s[0]) && !IsSpace(s[|s| - 1]) ==> TrimEnd(TrimStart(s)) == s
  {
  }

  lemma TrimmedNoLineBreak(s: string)
    ensures NoLineBreak(s) ==> NoLineBreak(TrimEnd(TrimStart(s)))
  {
    var t := TrimStart(s);
    if NoLineBreak(s) {
      InfixNoLineBreak(s, |s| - |t|, |s|);
      InfixNoLineBreak(t, 0, |TrimEnd(t)|);
    }
  }

  lemma InfixNoLineBreak(s: string, i: nat, j: nat)
    requires i <= j <= |s| && NoLineBreak(s)
    ensures NoLineBreak(s[i..j])
  {
    assert forall k :: 0 <= k < j - i ==> s[i..j][k] == s[i + k];
  }

  // ---------------------------------------------------------------------
  // Reading: `readlines()`, `strip()`, drop empty lines

  /** Index of the first line terminator, or `|s|` when there is none. */
  function FirstBreak(s: string): (i: nat)
    ensures i <= |s|
    ensures i < |s| ==> IsLineBreak(s[i])
    ensures NoLineBreak(s[..i])
  {
    if s == [] then 0
    else if IsLineBreak(s[0]) then 0
    else
      var i := 1 + FirstBreak(s[1..]);
      assert s[..i] == [s[0]] + s[1..][..i - 1];
      i
  }

  /** The lines of a file read in universal-newline mode, terminators
      removed ("\r\n", "\r" and "\n" each end a line). */
  function SplitLines(s: string): (lines: seq<string>)
    ensures forall k :: 0 <= k < |lines| ==> NoLineBreak(lines[k])
    decreases |s|
  {
    if s == [] then []
    else
      var i := FirstBreak(s);
      if i == |s| then [s]
      else
        var j := if s[i] == '\r' && i + 1 < |s| && s[i + 1] == '\n' then i + 2 else i + 1;
        [s[..i]] + SplitLines(s[j..])
  }

  /** Strip every line and keep the non-empty ones, in order. */
  function Clean(lines: seq<string>): (roots: seq<Path>)
    requires forall k :: 0 <= k < |lines| ==> NoLineBreak(lines[k])
    ensures forall k :: 0 <= k < |roots| ==> WellFormedRoot(roots[k])
  {
    if lines == [] then []
    else
      var r := Strip(lines[0]);
      var rest := Clean(lines[1..]);
      if r == [] then rest
      else
        assert WellFormedRoot(r);
        [r] + rest
  }

  /** The roots `Registry.from_file` reads from a file's text. */
  function Parse(content: string): (roots: seq<Path>)
    ensures forall k :: 0 <= k < |roots| ==> WellFormedRoot(roots[k])
  {
    Clean(SplitLines(content))
  }

  // ---------------------------------------------------------------------
  // Writing: each root followed by "\n"

  function Serialize(roots: seq<Path>): (text: string)
    ensures text == [] <==> roots == []
    ensures roots != [] ==> var last := roots[|roots| - 1];
                            |text| > |last| && text[|text| - |last| - 1..] == last + "\n"
  {
    if roots == [] then ""
    else Serialize(roots[..|roots| - 1]) + roots[|roots| - 1] + "\n"
  }

  lemma {:induction false} SerializeCons(r: Path, rs: seq<Path>)
    ensures Serialize([r] + rs) == r + "\n" + Serialize(rs)
    decreases |rs|
  {
    if rs == [] {
      assert ([r] + rs)[..0] == [];
    } else {
      var last := rs[|rs| - 1];
      assert ([r] + rs)[..|rs|] == [r] + rs[..|rs| - 1];
      SerializeCons(r, rs[..|rs| - 1]);
    }
  }

  lemma {:induction false} FirstBreakAfter(r: string, t: string)
    requires NoLineBreak(r)
    ensures FirstBreak(r + "\n" + t) == |r|
    decreases |r|
  {
    if r != [] {
      assert (r + "\n" + t)[1..] == r[1..] + "\n" + t;
      FirstBreakAfter(r[1..], t);
    }
  }

  lemma SplitLinesCons(r: string, t: string)
    requires NoLineBreak(r)
    ensures SplitLines(r + "\n" + t) == [r] + SplitLines(t)
  {
    var s := r + "\n" + t;
    FirstBreakAfter(r, t);
    assert s[..|r|] == r;
    assert s[|r| + 1..] == t;
  }

  /** Saving then loading gives the same list back, whenever every root is
      well formed (`from_file(to_file(rs)) == rs`). */
  lemma {:induction false} ParseSerialize(roots: seq<Path>)
    requires forall k :: 0 <= k < |roots| ==> WellFormedRoot(roots[k])
    ensures Parse(Serialize(roots)) == roots
    decreases |roots|
  {
    if roots != [] {
      var r, rest := roots[0], roots[1..];
      assert roots == [r] + rest;
      SerializeCons(r, rest);
      SplitLinesCons(r, Serialize(rest));
      var lines := SplitLines(Serialize(rest));
      assert ([r] + lines)[1..] == lines;
      ParseSerialize(rest);
    }
  }

  /** A registry that was loaded once is already in normal form: saving and
      loading it again changes nothing. */
  lemma ParseIsNormalForm(content: string)
    ensures Parse(Serialize(Parse(content))) == Parse(content)
  {
    ParseSerialize(Parse(content));
  }

  // ---------------------------------------------------------------------
  // Append

  /** The effect of `Registry.append` on the list once the path is resolved. */
  function AppendRoot(roots: seq<Path>, r: Path): (out: seq<Path>)
    ensures r in out && |roots| <= |out| <= |roots| + 1 && out[..|roots|] == roots
    ensures r in roots <==> out == roots
    ensures forall q :: q in out <==> q in roots || q == r
    ensures NoDup(roots) ==> NoDup(out)
  {
    if r in roots then roots else roots + [r]
  }

  /** Appending the same path twice has the effect of appending it once. */
  lemma AppendRootIdempotent(roots: seq<Path>, r: Path)
    ensures AppendRoot(AppendRoot(roots, r), r) == AppendRoot(roots, r)
  {
  }

  /** `Registry.append` with its two assertions: the path must exist and be a
      directory; it is then resolved with `abspath` and appended unless present. */
  function CheckedAppend(roots: seq<Path>, fs: Snapshot, abspath: Path -> Path, p: Path): (r: Result<seq<Path>>)
    ensures r.Ok? <==> fs.IsDir(abspath(p))
    ensures r.Err? ==> r.error == AssertionError(p)
    ensures r.Ok? ==> r.value == AppendRoot(roots, abspath(p))
  {
    var q := abspath(p);
    if !fs.Exists(q) then Err(AssertionError(p))
    else if !fs.IsDir(q) then Err(AssertionError(p))
    else Ok(AppendRoot(roots, q))
  }

  // ---------------------------------------------------------------------
  // Files

  /** `Registry.from_file`: a missing file is an empty registry. */
  function FromFile(fs: Snapshot, path: Path): (r: Result<seq<Path>>)
    ensures !fs.Exists(path) ==> r == Ok([])
    ensures fs.IsFile(path) ==> r == Ok(Parse(fs.files[path]))
    ensures fs.IsDir(path) ==> r == Err(IsADirectoryError(path))
  {
    if !fs.Exists(path) then Ok([])
    else if fs.IsDir(path) then Err(IsADirectoryError(path))
    else Ok(Parse(fs.files[path]))
  }

  /** `Registry.to_file`: creates the parent directory when it is missing,
      then overwrites the file with the serialised list.  `os.makedirs("")`
      fails, so a bare file name with no directory part raises. */
  function SaveSpec(fs: Snapshot, path: Path, roots: seq<Path>): (s: Step<Snapshot>)
    ensures s.err.None? ==> s.state.files == fs.files[path := Serialize(roots)]
    ensures s.err.None? ==> s.state.dirs == fs.dirs || s.state.dirs == fs.dirs[Dirname(path) := map[]]
    ensures s.err.Some? ==> s.state.files == fs.files
    ensures fs.IsDir(Dirname(path)) && !fs.IsDir(path) ==> s == Step(fs.(files := fs.files[path := Serialize(roots)]), None)
    ensures Dirname(path) == [] && !fs.Exists([]) ==> s == Step(fs, Some(FileNotFoundError([])))
    ensures fs.IsDir(path) ==> s.err.Some?
  {
    var prepared := PrepareSave(fs, path);
    if prepared.err.Some? then prepared
    else Step(prepared.state.(files := prepared.state.files[path := Serialize(roots)]), None)
  }

  /** What `to_file` does before writing: create a missing parent, and fail
      where the parent is a file or the target is a directory. */
  function PrepareSave(fs: Snapshot, path: Path): (s: Step<Snapshot>)
    ensures s.state.files == fs.files
    ensures forall d :: d in fs.dirs ==> d in s.state.dirs && s.state.dirs[d] == fs.dirs[d]
    ensures s.state.dirs.Keys <= fs.dirs.Keys + {Dirname(path)}
    ensures s.err.None? ==> Dirname(path) in s.state.dirs && !s.state.IsDir(path)
    ensures Dirname(path) == [] && !fs.Exists([]) ==> s.err == Some(FileNotFoundError([]))
    ensures Dirname(path) in fs.files && Dirname(path) !in fs.dirs ==> s.err == Some(NotADirectoryError(path))
    ensures fs.IsDir(Dirname(path)) && fs.IsDir(path) ==> s.err == Some(IsADirectoryError(path))
  {
    var dir := Dirname(path);
    var made :=
      if fs.Exists(dir) then Step(fs, None)
      else if dir == [] then Step(fs, Some(FileNotFoundError(dir)))
      else Step(fs.(dirs := fs.dirs[dir := map[]]), None);
    if made.err.Some? then made
    else if dir in made.state.files && dir !in made.state.dirs then Step(made.state, Some(NotADirectoryError(path)))
    else if made.state.IsDir(path) then Step(made.state, Some(IsADirectoryError(path)))
    else made
  }

  /** The preparation of `to_file`, in place. */
  method PrepareSaveOn(fs: FileSystem, path: Path) returns (err: Option<Error>)
    modifies fs
    ensures Step(fs.Snap(), err) == PrepareSave(old(fs.Snap()), path)
  {
    var dir := Dirname(path);
    if !(dir in fs.dirs || dir in fs.files) {
      if dir == [] {
        return Some(FileNotFoundError(dir));
      }
      fs.dirs := fs.dirs[dir := map[]];
    }
    if dir in fs.files && dir !in fs.dirs {
      return Some(NotADirectoryError(path));
    }
    if path in fs.dirs {
      return Some(IsADirectoryError(path));
    }
    return None;
  }

  /** The writing loop of `to_file`: the file is truncated, then each root
      is written followed by a newline. */
  method WriteLines(fs: FileSystem, path: Path, roots: seq<Path>)
    modifies fs
    ensures fs.files == old(fs.files)[path := Serialize(roots)] && fs.dirs == old(fs.dirs)
  {
    fs.files := fs.files[path := ""];
    var i := 0;
    while i < |roots|
      invariant 0 <= i <= |roots|
      invariant fs.files == old(fs.files)[path := Serialize(roots[..i])]
      invariant fs.dirs == old(fs.dirs)
    {
      assert roots[..i + 1][..i] == roots[..i];
      fs.files := fs.files[path := fs.files[path] + roots[i] + "\n"];
      i := i + 1;
    }
    assert roots[..i] == roots;
  }

  /** The in-memory registry; `append` updates its list in place. */
  class Registry {
    var roots: seq<Path>

    /** `Registry.from_list`. */
    constructor (roots: seq<Path>)
      ensures this.roots == roots
    {
      this.roots := roots;
    }

    method Append(fs: FileSystem, abspath: Path -> Path, p: Path) returns (err: Option<Error>)
      modifies this
      ensures var r := CheckedAppend(old(roots), fs.Snap(), abspath, p);
              if r.Ok? then err.None? && roots == r.value else err == Some(r.error) && roots == old(roots)
    {
      var q := abspath(p);
      if !(q in fs.dirs || q in fs.files) {
        return Some(AssertionError(p));
      }
      if q !in fs.dirs {
        return Some(AssertionError(p));
      }
      if q in roots {
        return None;
      }
      roots := roots + [q];
      return None;
    }

    method ToFile(fs: FileSystem, path: Path) returns (err: Option<Error>)
      modifies fs
      ensures Step(fs.Snap(), err) == SaveSpec(old(fs.Snap()), path, roots)
    {
      err := PrepareSaveOn(fs, path);
      if err.Some? {
        return;
      }
      WriteLines(fs, path, roots);
      return None;
    }
  }
}
