/** POSIX path strings and the two `os.path` operations whose results the
    core depends on structurally: `join` and `dirname`. */
module Paths {

  type Path = string

  predicate IsAbsolute(p: Path)
  {
    |p| > 0 && p[0] == '/'
  }

  /** `os.path.join(a, b)` on POSIX: an absolute `b` replaces `a`; otherwise a
      separator is inserted unless `a` is empty or already ends with one. */
  function Join(a: Path, b: Path): (r: Path)
    ensures IsAbsolute(b) ==> r == b
    ensures !IsAbsolute(b) ==> |r| >= |a| + |b| && r[..|a|] == a && r[|r| - |b|..] == b
  {
    if IsAbsolute(b) then b
    else if a == [] || a[|a| - 1] == '/' then a + b
    else a + "/" + b
  }

  /** Joining a fixed base with relative names is injective: distinct names
      give distinct paths. */
  lemma JoinInjective(a: Path, b1: Path, b2: Path)
    requires !IsAbsolute(b1) && !IsAbsolute(b2)
    ensures Join(a, b1) == Join(a, b2) <==> b1 == b2
  {
    var sep := if a == [] || a[|a| - 1] == '/' then a else a + "/";
    assert Join(a, b1) == sep + b1 && Join(a, b2) == sep + b2;
    if Join(a, b1) == Join(a, b2) {
      assert b1 == (sep + b1)[|sep|..];
      assert b2 == (sep + b2)[|sep|..];
    }
  }

  /** One past the last '/' of `p` (Python's `p.rfind('/') + 1`). */
  function SlashEnd(p: Path): (k: nat)
    ensures k <= |p|
    ensures k > 0 ==> p[k - 1] == '/'
    ensures forall i :: k <= i < |p| ==> p[i] != '/'
  {
    if p == [] then 0
    else if p[|p| - 1] == '/' then |p|
    else SlashEnd(p[..|p| - 1])
  }

  /** `s.rstrip('/')`. */
  function RStripSlashes(s: string): (r: string)
    ensures |r| <= |s| && r == s[..|r|]
    ensures r == [] || r[|r| - 1] != '/'
  {
    if s != [] && s[|s| - 1] == '/' then RStripSlashes(s[..|s| - 1]) else s
  }

  predicate AllSlashes(s: string)
  {
    forall i :: 0 <= i < |s| ==> s[i] == '/'
  }

  /** `os.path.dirname(p)` on POSIX: everything before the last '/', with
      trailing separators dropped unless the head consists only of them. */
  function Dirname(p: Path): (r: Path)
    ensures |r| <= |p| && r == p[..|r|]
    ensures (forall i :: 0 <= i < |p| ==> p[i] != '/') ==> r == []
  {
    var head := p[..SlashEnd(p)];
    if head != [] && !AllSlashes(head) then RStripSlashes(head) else head
  }
}
