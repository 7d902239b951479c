/** The local filesystem as the core sees it.  Every directory the core
    touches (a template root, a cache slot, the scratch directory, the salt
    root) is an entry of `dirs` holding its contents as a `Tree` of relative
    paths; plain text files outside those trees (the registry file, pid
    files, manifests) are entries of `files`.  Paths are looked up exactly as
    given: callers resolve them first where the source does. */
module Disk {
  import opened Paths

  type Content = string

  /** A path relative to the directory that holds it. */
  type RelPath = string

  datatype Entry = File(data: Content) | Dir

  type Tree = map<RelPath, Entry>

  datatype Snapshot = Snapshot(dirs: map<Path, Tree>, files: map<Path, Content>)
  {
    predicate Exists(p: Path) { p in dirs || p in files }
    predicate IsDir(p: Path) { p in dirs }
    predicate IsFile(p: Path) { p in files && p !in dirs }
  }

  /** The mutable filesystem shared by every operation of one invocation. */
  class FileSystem {
    var dirs: map<Path, Tree>
    var files: map<Path, Content>

    function Snap(): Snapshot
      reads this
    {
      Snapshot(dirs, files)
    }

    constructor (s: Snapshot)
      ensures Snap() == s
    {
      dirs := s.dirs;
      files := s.files;
    }
  }
}
