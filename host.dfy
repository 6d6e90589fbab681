/** The machine the deployer runs on, as far as the pipeline sees it: the
    external commands it runs (git, sed, snapcraft), what each does to the
    temporary checkout it runs in, and the outcomes the Go functions return. */
module Host {
  import opened Wrappers
  import Git
  import Sed

  /** One `exec.Command(...).Run()` of the pipeline, with its arguments and
      the directory it runs in. */
  datatype Command =
    | GitClone(url: string, target: string)             // git clone <url> <target>
    | GitFetch(dir: string, remote: string, refspec: string) // git fetch <remote> <refspec>
    | GitCheckout(dir: string, branch: string)          // git checkout <branch>
    | SedInPlace(dir: string, script: string, file: string) // sed -i <script> <dir>/<file>
    | RunSnapcraft(dir: string)                         // snapcraft

  /** What `filepath.Glob` returns: the matching paths, or `ErrBadPattern`. */
  datatype Globbed = Matches(paths: seq<string>) | BadPattern

  /** The errors the pipeline can return. */
  datatype Error =
    | TempDirFailed                 // ioutil.TempDir failed
    | CommandFailed(cmd: Command)   // the command exited unsuccessfully
    | GlobFailed(pattern: string)   // filepath.Glob rejected the pattern

  /** Why a call ends in a Go run-time panic instead of returning. */
  datatype PanicReason =
    | NilSnapcrafter      // a method call through a nil interface value
    | IndexOutOfRange     // `matches[0]` on an empty slice

  /** The result of a `(string, error)` Go call: it returns both values, or it panics. */
  datatype Outcome = Done(path: string, err: Option<Error>) | Panic(reason: PanicReason)

  /** Everything outside the process that decides how a command ends: the
      repositories reachable by URL, the commands that fail for reasons the
      model does not look into (network, disk, a missing tool, a failing
      build), what globbing finds after a build, and what sed makes of a
      file's lines under a script outside the literal fragment (no entry:
      sed exits with an error). */
  datatype Env = Env(
    remotes: map<string, Git.Remote>,
    failing: set<Command>,
    globs: map<string, Globbed>,
    foreignSed: map<(string, seq<string>), seq<string>>)
  {
    predicate Valid()
    {
      forall url :: url in remotes ==> remotes[url].Valid()
    }

    /** `filepath.Glob(pattern)`; a pattern nothing was recorded for matches nothing. */
    function Glob(pattern: string): Globbed
    {
      if pattern in globs then globs[pattern] else Matches([])
    }
  }

  /** The git repository in one temporary directory: the URL it was cloned
      from, its local branches, the branch checked out, and the working tree. */
  datatype RepoState = RepoState(
    origin: Option<string>,
    branches: map<string, Git.Tree>,
    current: Option<string>,
    files: Git.Tree)

  /** The directory `ioutil.TempDir` creates: empty, no repository. */
  const Empty := RepoState(None, map[], None, map[])

  /** The state a command leaves behind, or `None` when it exits unsuccessfully.
      - clone needs an empty directory and a reachable URL; it checks out the
        remote's HEAD branch (nothing, for a repository without commits);
      - fetch `src:dst` from "origin" needs the remote branch `src`, a valid
        name `dst`, and refuses to write into the branch checked out;
      - checkout needs the local branch;
      - `sed -i` needs the file; a line without a match is kept and is not
        an error; a script outside the literal fragment does what the
        environment records;
      - snapcraft changes nothing the model tracks. */
  function Step(env: Env, s: RepoState, cmd: Command): Option<RepoState>
  {
    if cmd in env.failing then None
    else
      match cmd
      case GitClone(url, _) => CloneInto(env, s, url)
      case GitFetch(_, remote, spec) => FetchInto(env, s, remote, spec)
      case GitCheckout(_, b) => CheckOut(s, b)
      case SedInPlace(_, script, file) =>
        (match Sed.Parse(script)
         case Some(sub) => EditFile(s, sub, file)
         case None => ForeignEdit(env, s, script, file))
      case RunSnapcraft(_) => Some(s)
  }

  /** `git clone url`: an empty directory and a reachable URL are needed. */
  function CloneInto(env: Env, s: RepoState, url: string): (r: Option<RepoState>)
    ensures r.Some? <==> s == Empty && url in env.remotes
    ensures r.Some? ==> r.value.origin == Some(url)
  {
    if s != Empty || url !in env.remotes then None
    else
      var rem := env.remotes[url];
      if rem.head in rem.refs then Some(RepoState(Some(url), map[rem.head := rem.refs[rem.head]], Some(rem.head), rem.refs[rem.head]))
      else Some(RepoState(Some(url), map[], None, map[]))
  }

  /** `git fetch remote src:dst`: creates or moves the local branch `dst` to the
      remote's `src`, but never the branch checked out. */
  function FetchInto(env: Env, s: RepoState, remote: string, spec: string): (r: Option<RepoState>)
    ensures r.Some? ==> r.value == s.(branches := r.value.branches)
  {
    if s.origin.None? || remote != "origin" || s.origin.value !in env.remotes then None
    else
      match Git.ParseRefspec(spec)
      case None => None
      case Some((src, dst)) =>
        var rem := env.remotes[s.origin.value];
        if src !in rem.refs || !Git.RefName(dst) || s.current == Some(dst) then None
        else Some(s.(branches := s.branches[dst := rem.refs[src]]))
  }

  /** `git checkout b` of an existing local branch. */
  function CheckOut(s: RepoState, b: string): (r: Option<RepoState>)
    ensures r.Some? <==> s.origin.Some? && b in s.branches
    ensures r.Some? ==> r.value == s.(current := Some(b), files := s.branches[b])
  {
    if s.origin.None? || b !in s.branches then None
    else Some(s.(current := Some(b), files := s.branches[b]))
  }

  /** The tree with `file`'s lines rewritten by `sub`; a tree without the file is kept. */
  function Rewritten(files: Git.Tree, sub: Sed.Subst, file: string): (r: Git.Tree)
    requires Sed.Literal(sub)
    ensures r.Keys == files.Keys
    ensures file in files ==> r[file] == Sed.Apply(sub, files[file])
    ensures forall f :: f in files && f != file ==> r[f] == files[f]
  {
    if file in files then files[file := Sed.Apply(sub, files[file])] else files
  }

  /** `sed -i script file`: every line rewritten; only the file must exist. */
  function EditFile(s: RepoState, sub: Sed.Subst, file: string): (r: Option<RepoState>)
    requires Sed.Literal(sub)
    ensures r.Some? <==> file in s.files
    ensures r.Some? ==> r.value == s.(files := Rewritten(s.files, sub, file))
  {
    if file !in s.files then None
    else Some(s.(files := Rewritten(s.files, sub, file)))
  }

  /** `sed -i script file` for a script the model does not interpret. */
  function ForeignEdit(env: Env, s: RepoState, script: string, file: string): (r: Option<RepoState>)
    ensures r.Some? ==> file in s.files && r.value == s.(files := r.value.files)
  {
    if file !in s.files || (script, s.files[file]) !in env.foreignSed then None
    else Some(s.(files := s.files[file := env.foreignSed[(script, s.files[file])]]))
  }

  /** A `sed -i` command with the script of a literal substitution edits the
      file by that substitution. */
  lemma SedStep(env: Env, s: RepoState, dir: string, sub: Sed.Subst, file: string)
    requires Sed.Literal(sub)
    ensures Step(env, s, SedInPlace(dir, Sed.Script(sub), file)) ==
        if SedInPlace(dir, Sed.Script(sub), file) in env.failing then None else EditFile(s, sub, file)
  {
    Sed.ParseScript(sub);
  }

  /** The commands that ran, the state they left, and whether the last one failed. */
  datatype Trace = Trace(state: RepoState, log: seq<Command>, failed: bool)

  /** Fail-fast execution of a command sequence: run each command in turn
      and stop after the first one that fails. This is the reference meaning
      of a Go function that runs commands with `if err != nil { return "", err }`
      after each. */
  function RunPlan(env: Env, s: RepoState, cmds: seq<Command>): (t: Trace)
    ensures |t.log| <= |cmds| && t.log == cmds[..|t.log|]
    ensures !t.failed ==> t.log == cmds
    ensures t.failed ==> t.log != []
    decreases |cmds|
  {
    if cmds == [] then Trace(s, [], false)
    else
      match Step(env, s, cmds[0])
      case None => Trace(s, [cmds[0]], true)
      case Some(s') =>
        var t := RunPlan(env, s', cmds[1..]);
        Trace(t.state, [cmds[0]] + t.log, t.failed)
  }

  /** One step of `RunPlan`: the first command, then the rest from the state it left. */
  lemma RunPlanCons(env: Env, s: RepoState, c: Command, rest: seq<Command>)
    ensures Step(env, s, c).None? ==> RunPlan(env, s, [c] + rest) == Trace(s, [c], true)
    ensures Step(env, s, c).Some? ==>
      var t := RunPlan(env, Step(env, s, c).value, rest);
      RunPlan(env, s, [c] + rest) == Trace(t.state, [c] + t.log, t.failed)
  {
    assert ([c] + rest)[0] == c && ([c] + rest)[1..] == rest;
  }

  /** Continues a trace with more commands, unless it already failed. */
  function Then(env: Env, t: Trace, cmds: seq<Command>): Trace
  {
    if t.failed then t
    else
      var u := RunPlan(env, t.state, cmds);
      Trace(u.state, t.log + u.log, u.failed)
  }

  /** Running `a + b` fail-fast is running `a`, then `b` only if `a` did not fail:
      two fail-fast functions called one after the other with an early
      return between them behave as one. */
  lemma {:induction false} RunPlanAppend(env: Env, s: RepoState, a: seq<Command>, b: seq<Command>)
    ensures RunPlan(env, s, a + b) == Then(env, RunPlan(env, s, a), b)
    decreases |a|
  {
    if a == [] {
      assert a + b == b;
    } else {
      assert (a + b)[0] == a[0];
      assert (a + b)[1..] == a[1..] + b;
      match Step(env, s, a[0])
      case None =>
      case Some(s') =>
        RunPlanAppend(env, s', a[1..], b);
        var t := RunPlan(env, s', a[1..]);
        if !t.failed {
          var u := RunPlan(env, t.state, b);
          assert [a[0]] + (t.log + u.log) == ([a[0]] + t.log) + u.log;
        }
    }
  }

  /** When a plan fails, every command before the last one logged succeeded,
      the last one failed from the state they left, and that state is kept:
      the reported failure is the first failure and no later command ran. */
  lemma {:induction false} RunPlanFailure(env: Env, s: RepoState, cmds: seq<Command>)
    requires RunPlan(env, s, cmds).failed
    ensures var t := RunPlan(env, s, cmds);
            var n := |t.log| - 1;
            var before := RunPlan(env, s, cmds[..n]);
            !before.failed && Step(env, before.state, cmds[n]).None? && t.state == before.state
    decreases |cmds|
  {
    var t := RunPlan(env, s, cmds);
    var n := |t.log| - 1;
    assert cmds[..0] == [];
    match Step(env, s, cmds[0])
    case None =>
    case Some(s') =>
      var u := RunPlan(env, s', cmds[1..]);
      assert u.failed && t.log == [cmds[0]] + u.log;
      RunPlanFailure(env, s', cmds[1..]);
      var m := |u.log| - 1;
      assert m == n - 1;
      assert cmds[..n][0] == cmds[0] && cmds[..n][1..] == cmds[1..][..m];
      assert cmds[1..][m] == cmds[n];
  }

  /** The temporary directory of one build and the git repository in it.
      Each build creates a fresh one and nothing else touches it. */
  class Workspace {
    const dir: string
    var origin: Option<string>
    var branches: map<string, Git.Tree>
    var current: Option<string>
    var files: Git.Tree
    /** The commands run in this directory so far, in order. */
    var log: seq<Command>

    function State(): RepoState
      reads this
    {
      RepoState(origin, branches, current, files)
    }

    /** `ioutil.TempDir` has created the empty directory `dir`. */
    constructor (dir: string)
      ensures this.dir == dir && State() == Empty && log == []
    {
      this.dir := dir;
      origin, branches, current, files := None, map[], None, map[];
      log := [];
    }

    /** `exec.Command(...).Run()`: runs one command here and reports whether it succeeded. */
    method Run(env: Env, cmd: Command) returns (ok: bool)
      modifies this
      ensures ok == Step(env, old(State()), cmd).Some?
      ensures State() == if ok then Step(env, old(State()), cmd).value else old(State())
      ensures log == old(log) + [cmd]
    {
      var next := Step(env, State(), cmd);
      if next.Some? {
        origin, branches, current, files := next.value.origin, next.value.branches, next.value.current, next.value.files;
      }
      log := log + [cmd];
      ok := next.Some?;
    }
  }
}
