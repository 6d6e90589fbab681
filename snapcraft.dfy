/** `Snapcraft.Snap`: build a snap with the snapcraft tool and return the
    path of the first `*.snap` file in the tree. */
module Snapcraft {
  import opened Wrappers
  import opened Host

  /** The glob `path.Join(repoPath, "*.snap")` for a clean directory path
      without a trailing `/`, such as the one `ioutil.TempDir` returns. */
  function SnapPattern(repoPath: string): string
  {
    repoPath + "/*.snap"
  }

  /** What `Snap(repoPath)` does once snapcraft has run (`run` is its error,
      if any) and the tree has been globbed. The glob result is consulted
      only after a successful run, and an empty match list is indexed anyway. */
  function Snap(repoPath: string, run: Option<Error>, glob: Globbed): (r: Outcome)
    ensures run.Some? ==> r == Done("", run)
    ensures r.Done? && r.err.Some? ==> r.path == ""
    ensures r.Done? && r.err.None? <==> run.None? && glob.Matches? && glob.paths != []
    ensures r.Done? && r.err.None? ==> r.path == glob.paths[0]
    ensures run.None? && glob.BadPattern? ==> r == Done("", Some(GlobFailed(SnapPattern(repoPath))))
    ensures r.Panic? <==> run.None? && glob == Matches([])
  {
    if run.Some? then Done("", run)
    else
      match glob
      case BadPattern => Done("", Some(GlobFailed(SnapPattern(repoPath))))
      case Matches(paths) =>
        if paths == [] then Panic(IndexOutOfRange) else Done(paths[0], None)
  }

  /** A failed build never looks at the glob: any two glob results give the same outcome. */
  lemma FailedBuildIgnoresGlob(repoPath: string, run: Option<Error>, g1: Globbed, g2: Globbed)
    requires run.Some?
    ensures Snap(repoPath, run, g1) == Snap(repoPath, run, g2)
  {
  }

  /** A successful snap path is one of the files the glob found. */
  lemma SnapIsGlobbed(repoPath: string, glob: Globbed)
    requires Snap(repoPath, None, glob).Done? && Snap(repoPath, None, glob).err.None?
    ensures glob.Matches? && Snap(repoPath, None, glob).path in glob.paths
  {
  }
}
