/** `Repo.GetSnap`: clone a pull request of a git repository into a fresh
    temporary directory, patch the snap name and the port so that the build
    does not collide with the main deployment, and snap the result. */
module Repo {
  import opened Wrappers
  import opened Host
  import Git
  import Sed
  import Snapcraft

  /** The `snapcraft.Snapcrafter` a `Repo` holds: none (the zero value of the
      interface, which `&repo.Repo{}` leaves in place), the snapcraft tool, or
      a stand-in that returns the path it is given, the way the repository's
      own tests stub the build. */
  datatype Snapcrafter = Unset | Tool | PathEcho

  /** A git repository to build snaps from. */
  datatype Repo = Repo(snapcrafter: Snapcrafter)

  const YamlPath := "snapcraft.yaml"
  const MainPath := "cmd/snapweb/main.go"

  /** The pull request's merge ref on the remote. */
  function PullRef(prID: string): string
  {
    "pull/" + prID + "/merge"
  }

  /** The local branch the pull request is fetched into and checked out. */
  function Branch(prID: string): string
  {
    "pull_" + prID
  }

  /** `fmt.Sprintf("pull/%s/merge:pull_%s", prID, prID)`: the merge ref, a
      colon, the local branch. */
  function Refspec(prID: string): string
  {
    PullRef(prID) + ":" + Branch(prID)
  }

  /** The substitution of snapcraft.yaml: `name: snapweb` by `name: snapweb-<id>`. */
  function YamlSubst(prID: string): Sed.Subst
  {
    Sed.Subst("name: snapweb", "name: snapweb-" + prID)
  }

  /** The substitution of main.go: `:4200` by `:4<id>`. */
  function MainSubst(prID: string): Sed.Subst
  {
    Sed.Subst(":4200", ":4" + prID)
  }

  /** `fmt.Sprintf("s/name: snapweb/name: snapweb-%s/", prID)`. */
  function YamlScript(prID: string): string
  {
    Sed.Script(YamlSubst(prID))
  }

  /** `fmt.Sprintf("s/:4200/:4%s/", prID)`. */
  function MainScript(prID: string): string
  {
    Sed.Script(MainSubst(prID))
  }

  /** `Refspec` is the `fmt.Sprintf` value of `clone`'s fetch, with the id in
      place of each `%s`. */
  lemma {:induction false} RefspecIsSprintf(prID: string)
    ensures Refspec(prID) == "pull/" + prID + "/merge:pull_" + prID
  {
    assert "/merge" + ":" + "pull_" == "/merge:pull_";
  }

  /** The two scripts are the `fmt.Sprintf` values of `patch`, with the id in
      place of `%s`. */
  lemma {:induction false} ScriptsAreSprintf(prID: string)
    ensures YamlScript(prID) == "s/name: snapweb/name: snapweb-" + prID + "/"
    ensures MainScript(prID) == "s/:4200/:4" + prID + "/"
  {
    assert "s/" + "name: snapweb" + "/" + "name: snapweb-" == "s/name: snapweb/name: snapweb-";
    assert "s/" + ":4200" + "/" + ":4" == "s/:4200/:4";
  }

  /** The identifier goes unescaped into both sed replacements; without `/`,
      `&`, backslash and newline it is copied there literally. */
  predicate SafeId(prID: string)
  {
    Sed.LiteralReplacement(prID)
  }

  lemma PatternsAreLiteral()
    ensures Sed.LiteralPattern("name: snapweb") && Sed.LiteralPattern(":4200")
    ensures Sed.LiteralReplacement("name: snapweb-") && Sed.LiteralReplacement(":4")
  {
  }

  /** The two scripts `patch` writes are the literal substitutions of
      `name: snapweb` by `name: snapweb-<id>` and of `:4200` by `:4<id>`. */
  lemma ScriptsAreLiteral(prID: string)
    requires SafeId(prID)
    ensures Sed.Parse(YamlScript(prID)) == Some(YamlSubst(prID))
    ensures Sed.Parse(MainScript(prID)) == Some(MainSubst(prID))
    ensures Sed.Literal(YamlSubst(prID)) && Sed.Literal(MainSubst(prID))
  {
    var y, m := YamlSubst(prID), MainSubst(prID);
    PatternsAreLiteral();
    Sed.LiteralReplacementConcat("name: snapweb-", prID);
    Sed.LiteralReplacementConcat(":4", prID);
    Sed.ParseScript(y);
    Sed.ParseScript(m);
  }

  /** The commands of `clone`, in order. */
  function CloneCommands(gitURL: string, prID: string, dir: string): seq<Command>
  {
    [GitClone(gitURL, dir), GitFetch(dir, "origin", Refspec(prID)), GitCheckout(dir, Branch(prID))]
  }

  /** The commands of `patch`, in order. */
  function PatchCommands(prID: string, dir: string): seq<Command>
  {
    [SedInPlace(dir, YamlScript(prID), YamlPath), SedInPlace(dir, MainScript(prID), MainPath)]
  }

  /** Every command `GetSnap` runs before snapping, in order. */
  function Plan(gitURL: string, prID: string, dir: string): seq<Command>
  {
    CloneCommands(gitURL, prID, dir) + PatchCommands(prID, dir)
  }

  /** What the snapcrafter does with the patched tree at `dir`: the commands
      it runs there and the outcome. */
  function Snapped(env: Env, sc: Snapcrafter, s: RepoState, dir: string): (seq<Command>, Outcome)
  {
    match sc
    case Unset => ([], Panic(NilSnapcrafter))
    case PathEcho => ([], Done(dir, None))
    case Tool =>
      var build := RunSnapcraft(dir);
      var run := if Step(env, s, build).None? then Some(CommandFailed(build)) else None;
      ([build], Snapcraft.Snap(dir, run, env.Glob(Snapcraft.SnapPattern(dir))))
  }

  /** The last state, the commands run and the outcome of one `GetSnap`. */
  datatype Run = Run(state: RepoState, log: seq<Command>, outcome: Outcome)

  /** The reference meaning of `GetSnap` once `ioutil.TempDir` has created
      `dir`: the clone-and-patch plan run fail-fast, the first failing
      command reported, and the snapcrafter called only when all succeeded. */
  function Pipeline(env: Env, sc: Snapcrafter, gitURL: string, prID: string, dir: string): (r: Run)
    ensures r.outcome.Done? && r.outcome.err.Some? ==> r.outcome.path == ""
  {
    var t := RunPlan(env, Empty, Plan(gitURL, prID, dir));
    if t.failed then Run(t.state, t.log, Done("", Some(CommandFailed(t.log[|t.log| - 1]))))
    else
      var (cmds, out) := Snapped(env, sc, t.state, dir);
      Run(t.state, t.log + cmds, out)
  }

  /** The outcome of `GetSnap`, `ioutil.TempDir` having created the directory
      `tmp` or failed. */
  function Built(env: Env, sc: Snapcrafter, gitURL: string, prID: string, tmp: Option<string>): (r: Outcome)
    ensures r.Done? && r.err.Some? ==> r.path == ""
  {
    if tmp.None? then Done("", Some(TempDirFailed)) else Pipeline(env, sc, gitURL, prID, tmp.value).outcome
  }

  /** `clone`: create the temporary directory, clone, fetch the pull request
      into a local branch, check that branch out; return the directory or
      the first error. The directory object is returned too, since it is
      what the path names on disk. */
  method Clone(env: Env, gitURL: string, prID: string, tmp: Option<string>)
    returns (repoDir: string, err: Option<Error>, ws: Workspace?)
    ensures tmp.None? ==> repoDir == "" && err == Some(TempDirFailed) && ws == null
    ensures tmp.Some? ==> ws != null && fresh(ws) && ws.dir == tmp.value
    ensures tmp.Some? ==>
      var t := RunPlan(env, Empty, CloneCommands(gitURL, prID, tmp.value));
      ws.State() == t.state && ws.log == t.log &&
      if t.failed then repoDir == "" && err == Some(CommandFailed(t.log[|t.log| - 1]))
      else repoDir == ws.dir && err == None
  {
    if tmp.None? {
      return "", Some(TempDirFailed), null;
    }
    ws := new Workspace(tmp.value);
    var clone := GitClone(gitURL, ws.dir);
    var fetch := GitFetch(ws.dir, "origin", Refspec(prID));
    var checkout := GitCheckout(ws.dir, Branch(prID));
    assert CloneCommands(gitURL, prID, ws.dir) == [clone] + [fetch, checkout];
    assert [fetch, checkout] == [fetch] + [checkout] && [checkout] == [checkout] + [];
    RunPlanCons(env, ws.State(), clone, [fetch, checkout]);
    var ok := ws.Run(env, clone);
    if !ok {
      return "", Some(CommandFailed(clone)), ws;
    }
    RunPlanCons(env, ws.State(), fetch, [checkout]);
    ok := ws.Run(env, fetch);
    if !ok {
      return "", Some(CommandFailed(fetch)), ws;
    }
    RunPlanCons(env, ws.State(), checkout, []);
    ok := ws.Run(env, checkout);
    if !ok {
      return "", Some(CommandFailed(checkout)), ws;
    }
    return ws.dir, None, ws;
  }

  /** `patch`: rewrite the snap name in snapcraft.yaml, then the port in
      cmd/snapweb/main.go, with `sed -i`; return the same path or the first
      error. `repoPath` names the directory `ws`. */
  method Patch(env: Env, ws: Workspace, repoPath: string, prID: string) returns (patchedPath: string, err: Option<Error>)
    requires repoPath == ws.dir
    modifies ws
    ensures var t := RunPlan(env, old(ws.State()), PatchCommands(prID, ws.dir));
      ws.State() == t.state && ws.log == old(ws.log) + t.log &&
      if t.failed then patchedPath == "" && err == Some(CommandFailed(t.log[|t.log| - 1]))
      else patchedPath == repoPath && err == None
  {
    var yamlSed := SedInPlace(repoPath, YamlScript(prID), YamlPath);
    var mainSed := SedInPlace(repoPath, MainScript(prID), MainPath);
    assert PatchCommands(prID, ws.dir) == [yamlSed] + [mainSed] && [mainSed] == [mainSed] + [];
    RunPlanCons(env, ws.State(), yamlSed, [mainSed]);
    var ok := ws.Run(env, yamlSed);
    if !ok {
      return "", Some(CommandFailed(yamlSed));
    }
    RunPlanCons(env, ws.State(), mainSed, []);
    ok := ws.Run(env, mainSed);
    if !ok {
      return "", Some(CommandFailed(mainSed));
    }
    return repoPath, None;
  }

  /** The call `r.snapcrafter.Snap(path)`; `path` names the directory `ws`. */
  method CallSnapcrafter(env: Env, sc: Snapcrafter, ws: Workspace, path: string) returns (out: Outcome)
    requires path == ws.dir
    modifies ws
    ensures ws.State() == old(ws.State())
    ensures ws.log == old(ws.log) + Snapped(env, sc, old(ws.State()), ws.dir).0
    ensures out == Snapped(env, sc, old(ws.State()), ws.dir).1
  {
    match sc
    case Unset =>
      out := Panic(NilSnapcrafter);
    case PathEcho =>
      out := Done(path, None);
    case Tool =>
      var build := RunSnapcraft(path);
      var ok := ws.Run(env, build);
      var run := if ok then None else Some(CommandFailed(build));
      out := Snapcraft.Snap(path, run, env.Glob(Snapcraft.SnapPattern(path)));
  }

  /** `GetSnap(gitURL, prID)`: clone, patch, snap, returning `("", err)` at the
      first error. Agrees with `Pipeline` on the directory's final state, on
      the commands run and on the outcome. */
  method GetSnap(env: Env, r: Repo, gitURL: string, prID: string, tmp: Option<string>)
    returns (out: Outcome, ws: Workspace?)
    ensures out == Built(env, r.snapcrafter, gitURL, prID, tmp)
    ensures tmp.None? ==> ws == null
    ensures tmp.Some? ==>
      && ws != null && fresh(ws) && ws.dir == tmp.value
      && ws.State() == Pipeline(env, r.snapcrafter, gitURL, prID, tmp.value).state
      && ws.log == Pipeline(env, r.snapcrafter, gitURL, prID, tmp.value).log
  {
    var repoPath, err, w := Clone(env, gitURL, prID, tmp);
    ws := w;
    if err.Some? {
      out := Done("", err);
      if tmp.Some? {
        RunPlanAppend(env, Empty, CloneCommands(gitURL, prID, ws.dir), PatchCommands(prID, ws.dir));
      }
      return;
    }
    var patchedPath, err2 := Patch(env, ws, repoPath, prID);
    RunPlanAppend(env, Empty, CloneCommands(gitURL, prID, ws.dir), PatchCommands(prID, ws.dir));
    if err2.Some? {
      out := Done("", err2);
      return;
    }
    out := CallSnapcrafter(env, r.snapcrafter, ws, patchedPath);
  }

  /** The clone succeeds exactly when the URL is reachable, the remote has the
      pull request's merge ref, the local branch it is fetched into is not the
      one the clone checked out, and no git command fails for another reason;
      the tree then checked out is the merge ref's: the branch the refspec
      creates is the branch checked out. */
  predicate CloneSucceeds(env: Env, gitURL: string, prID: string, dir: string)
  {
    var cmds := CloneCommands(gitURL, prID, dir);
    && cmds[0] !in env.failing && cmds[1] !in env.failing && cmds[2] !in env.failing
    && gitURL in env.remotes
    && PullRef(prID) in env.remotes[gitURL].refs
    && !(env.remotes[gitURL].head in env.remotes[gitURL].refs && env.remotes[gitURL].head == Branch(prID))
  }

  /** With a colon-free identifier the refspec fetches the merge ref into `pull_<id>`. */
  lemma RefspecNamesBranch(prID: string)
    requires ':' !in prID
    ensures Git.ParseRefspec(Refspec(prID)) == Some((PullRef(prID), Branch(prID)))
  {
    NamesOfId(prID);
    Git.ParseJoined(PullRef(prID), Branch(prID));
  }

  /** Whatever the identifier, the source side of its refspec is a valid ref
      name only when it is the merge ref, and then the destination is `pull_<id>`;
      an identifier with a colon therefore makes the fetch fail. */
  lemma RefspecSource(prID: string)
    ensures Git.ParseRefspec(Refspec(prID)).Some?
    ensures var (src, dst) := Git.ParseRefspec(Refspec(prID)).value;
      Git.RefName(src) ==> src == PullRef(prID) && dst == Branch(prID)
  {
    Git.ParseJoinedSource(PullRef(prID), Branch(prID));
  }

  /** The merge ref is a valid ref name exactly when the identifier has no
      colon, and then so is the local branch; the two never coincide. */
  lemma NamesOfId(prID: string)
    ensures Git.RefName(PullRef(prID)) <==> ':' !in prID
    ensures ':' !in prID ==> Git.RefName(Branch(prID))
    ensures PullRef(prID) != Branch(prID)
  {
    assert PullRef(prID)[4] != Branch(prID)[4];
  }

  /** `clone` as a whole: when it succeeds, and what it leaves checked out. */
  lemma {:induction false} CloneChecksOutPullRequest(env: Env, gitURL: string, prID: string, dir: string)
    requires env.Valid()
    ensures var t := RunPlan(env, Empty, CloneCommands(gitURL, prID, dir));
      (!t.failed <==> CloneSucceeds(env, gitURL, prID, dir)) &&
      (!t.failed ==> t.state.files == env.remotes[gitURL].refs[PullRef(prID)] &&
                     t.state.current == Some(Branch(prID)) && t.state.origin == Some(gitURL))
  {
    var clone, fetch, checkout := GitClone(gitURL, dir), GitFetch(dir, "origin", Refspec(prID)), GitCheckout(dir, Branch(prID));
    assert CloneCommands(gitURL, prID, dir) == [clone] + [fetch, checkout];
    assert [fetch, checkout] == [fetch] + [checkout] && [checkout] == [checkout] + [];
    RunPlanCons(env, Empty, clone, [fetch, checkout]);
    if Step(env, Empty, clone).None? { return; }
    var s1 := Step(env, Empty, clone).value;
    var r := env.remotes[gitURL];
    assert r.Valid();
    RunPlanCons(env, s1, fetch, [checkout]);
    RefspecSource(prID);
    NamesOfId(prID);
    if PullRef(prID) !in r.refs {
      assert Step(env, s1, fetch).None?;
      return;
    }
    RefspecNamesBranch(prID);
    assert s1.current == Some(Branch(prID)) <==> r.head in r.refs && r.head == Branch(prID);
    if Step(env, s1, fetch).None? { return; }
    var s2 := Step(env, s1, fetch).value;
    assert s2.branches == s1.branches[Branch(prID) := r.refs[PullRef(prID)]];
    RunPlanCons(env, s2, checkout, []);
  }

  /** The tree `patch` leaves when both seds succeed: snapcraft.yaml and
      main.go rewritten by their substitutions, every other file as it was. */
  function PatchedFiles(files: Git.Tree, prID: string): Git.Tree
    requires SafeId(prID)
  {
    ScriptsAreLiteral(prID);
    Rewritten(Rewritten(files, YamlSubst(prID), YamlPath), MainSubst(prID), MainPath)
  }

  /** `patch` as a whole: it succeeds exactly when both files exist and neither
      sed fails otherwise. Only the working tree changes: on success both
      files are rewritten, after a failing second sed the first rewrite
      stays, after a failing first sed nothing changed. */
  lemma {:induction false} PatchRewritesTwoFiles(env: Env, s: RepoState, prID: string, dir: string)
    requires SafeId(prID)
    ensures (ScriptsAreLiteral(prID);
      var t := RunPlan(env, s, PatchCommands(prID, dir));
      var cmds := PatchCommands(prID, dir);
      && (!t.failed <==> cmds[0] !in env.failing && YamlPath in s.files && cmds[1] !in env.failing && MainPath in s.files)
      && t.state == s.(files := t.state.files)
      && t.state.files == (if !t.failed then PatchedFiles(s.files, prID)
                           else if |t.log| == 2 then Rewritten(s.files, YamlSubst(prID), YamlPath)
                           else s.files))
  {
    ScriptsAreLiteral(prID);
    var yamlSed, mainSed := SedInPlace(dir, YamlScript(prID), YamlPath), SedInPlace(dir, MainScript(prID), MainPath);
    assert PatchCommands(prID, dir) == [yamlSed] + [mainSed] && [mainSed] == [mainSed] + [];
    RunPlanCons(env, s, yamlSed, [mainSed]);
    SedStep(env, s, dir, YamlSubst(prID), YamlPath);
    if Step(env, s, yamlSed).None? { return; }
    var s1 := Step(env, s, yamlSed).value;
    RunPlanCons(env, s1, mainSed, []);
    SedStep(env, s1, dir, MainSubst(prID), MainPath);
  }

  /** What `PatchedFiles` changes: the same file names, the two files rewritten
      line by line, every other file untouched. */
  lemma PatchedFilesChangeTwo(files: Git.Tree, prID: string)
    requires SafeId(prID) && YamlPath in files && MainPath in files
    ensures (ScriptsAreLiteral(prID);
      var p := PatchedFiles(files, prID);
      && p.Keys == files.Keys
      && p[YamlPath] == Sed.Apply(YamlSubst(prID), files[YamlPath])
      && p[MainPath] == Sed.Apply(MainSubst(prID), files[MainPath])
      && forall f :: f in files && f != YamlPath && f != MainPath ==> p[f] == files[f])
  {
    ScriptsAreLiteral(prID);
    assert YamlPath != MainPath;
  }

  /** No command after a failing clone step runs, and `GetSnap` returns
      `("", err)` for it. */
  lemma {:induction false} CloneFailureStopsPipeline(env: Env, sc: Snapcrafter, gitURL: string, prID: string, dir: string)
    requires RunPlan(env, Empty, CloneCommands(gitURL, prID, dir)).failed
    ensures var c := RunPlan(env, Empty, CloneCommands(gitURL, prID, dir));
      Pipeline(env, sc, gitURL, prID, dir) == Run(c.state, c.log, Done("", Some(CommandFailed(c.log[|c.log| - 1]))))
  {
    RunPlanAppend(env, Empty, CloneCommands(gitURL, prID, dir), PatchCommands(prID, dir));
  }

  /** After a successful clone, a failing patch step ends `GetSnap` with
      `("", err)` and the snapcrafter is not called. */
  lemma {:induction false} PatchFailureSkipsSnap(env: Env, sc: Snapcrafter, gitURL: string, prID: string, dir: string)
    requires !RunPlan(env, Empty, CloneCommands(gitURL, prID, dir)).failed
    requires RunPlan(env, RunPlan(env, Empty, CloneCommands(gitURL, prID, dir)).state, PatchCommands(prID, dir)).failed
    ensures var c := RunPlan(env, Empty, CloneCommands(gitURL, prID, dir));
      var p := RunPlan(env, c.state, PatchCommands(prID, dir));
      Pipeline(env, sc, gitURL, prID, dir) == Run(p.state, c.log + p.log, Done("", Some(CommandFailed(p.log[|p.log| - 1]))))
  {
    RunPlanAppend(env, Empty, CloneCommands(gitURL, prID, dir), PatchCommands(prID, dir));
  }

  /** When clone and patch succeed, every planned command ran and `GetSnap`
      returns what the snapcrafter returns for the patched directory; the
      path-returning stand-in gives back the clone directory itself. */
  lemma {:induction false} SuccessReturnsSnapcrafterResult(env: Env, sc: Snapcrafter, gitURL: string, prID: string, dir: string)
    requires !RunPlan(env, Empty, Plan(gitURL, prID, dir)).failed
    ensures var t := RunPlan(env, Empty, Plan(gitURL, prID, dir));
      var r := Pipeline(env, sc, gitURL, prID, dir);
      r.log == Plan(gitURL, prID, dir) + Snapped(env, sc, t.state, dir).0 &&
      r.outcome == Snapped(env, sc, t.state, dir).1 &&
      (sc == PathEcho ==> r.outcome == Done(dir, None))
  {
  }

  /** With no snapcrafter, as `NewHandler` builds its `Repo`, every `GetSnap`
      that gets past the clone and the patch panics on the nil interface. */
  lemma ProductionRepoPanics(env: Env, gitURL: string, prID: string, dir: string)
    ensures Pipeline(env, Unset, gitURL, prID, dir).outcome.Panic? <==> !RunPlan(env, Empty, Plan(gitURL, prID, dir)).failed
  {
  }

  /** The files of the repository's own test fixture: a manifest `name: snapweb`
      and an entry point `:4200`, each one line without a trailing newline. */
  const FixtureTree: Git.Tree := map[YamlPath := ["name: snapweb"], MainPath := [":4200"]]

  /** The fixture patched for `prID`. */
  function PatchedFixture(prID: string): Git.Tree
  {
    map[YamlPath := ["name: snapweb-" + prID], MainPath := [":4" + prID]]
  }

  /** A repository whose only branch, and HEAD, is the pull request's merge ref. */
  function FixtureRemote(prID: string): Git.Remote
  {
    Git.Remote(PullRef(prID), map[PullRef(prID) := FixtureTree])
  }

  /** The fixture reachable at `gitURL`, nothing failing, no snap built. */
  function FixtureEnv(gitURL: string, prID: string): Env
  {
    Env(map[gitURL := FixtureRemote(prID)], {}, map[], map[])
  }

  /** The fixture's two files patched: `name: snapweb` becomes exactly
      `name: snapweb-<id>` and `:4200` becomes exactly `:4<id>`. */
  lemma FixturePatched(prID: string)
    requires SafeId(prID)
    ensures PatchedFiles(FixtureTree, prID) == PatchedFixture(prID)
  {
    ScriptsAreLiteral(prID);
    Sed.ApplyToPatternLine(YamlSubst(prID));
    Sed.ApplyToPatternLine(MainSubst(prID));
    PatchedFilesChangeTwo(FixtureTree, prID);
    assert YamlPath != MainPath;
    assert PatchedFiles(FixtureTree, prID).Keys == {YamlPath, MainPath} == PatchedFixture(prID).Keys;
  }

  /** Cloning the fixture checks out the merge ref's tree as `pull_<id>`. */
  lemma FixtureClones(gitURL: string, prID: string, dir: string)
    requires ':' !in prID
    ensures var c := RunPlan(FixtureEnv(gitURL, prID), Empty, CloneCommands(gitURL, prID, dir));
      !c.failed && c.state.files == FixtureTree && c.state.current == Some(Branch(prID)) &&
      c.state.origin == Some(gitURL)
  {
    var env := FixtureEnv(gitURL, prID);
    NamesOfId(prID);
    assert env.Valid();
    CloneChecksOutPullRequest(env, gitURL, prID, dir);
    assert CloneSucceeds(env, gitURL, prID, dir);
  }

  /** Patching a checkout of the fixture gives the patched fixture and
      leaves the checked-out branch and the origin alone. */
  lemma FixturePatches(env: Env, s: RepoState, prID: string, dir: string)
    requires SafeId(prID) && env.failing == {} && s.files == FixtureTree
    ensures var p := RunPlan(env, s, PatchCommands(prID, dir));
      !p.failed && p.state.files == PatchedFixture(prID) && p.state.current == s.current &&
      p.state.origin == s.origin
  {
    ScriptsAreLiteral(prID);
    PatchRewritesTwoFiles(env, s, prID, dir);
    FixturePatched(prID);
  }

  /** End to end on the fixture with nothing failing and the path-returning
      stand-in: `GetSnap` returns the clone directory without error, runs the
      whole plan, and leaves in it the merge ref's tree patched, checked out as
      `pull_<id>`. */
  lemma {:induction false} GetSnapPatchesFixture(gitURL: string, prID: string, dir: string)
    requires SafeId(prID) && ':' !in prID
    ensures var r := Pipeline(FixtureEnv(gitURL, prID), PathEcho, gitURL, prID, dir);
      r.outcome == Done(dir, None) && r.log == Plan(gitURL, prID, dir) &&
      r.state.files == PatchedFixture(prID) && r.state.current == Some(Branch(prID)) &&
      r.state.origin == Some(gitURL)
  {
    var env := FixtureEnv(gitURL, prID);
    FixtureClones(gitURL, prID, dir);
    var c := RunPlan(env, Empty, CloneCommands(gitURL, prID, dir));
    FixturePatches(env, c.state, prID, dir);
    RunPlanAppend(env, Empty, CloneCommands(gitURL, prID, dir), PatchCommands(prID, dir));
  }
}
