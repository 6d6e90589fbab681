# snapweb-deployer, modelled in Dafny

snapweb-deployer is a small HTTP service that deploys snapweb pull requests
as snaps:

- `PUT /{prID}` builds the pull request and asks snapd to install the
  result.
- `DELETE /{prID}` asks snapd to remove the snap `snapweb-<prID>`.

Building a pull request (`Repo.GetSnap`) has four stages:

1. **Clone.** Create a temporary directory, `git clone` the repository
   into it, `git fetch origin pull/<id>/merge:pull_<id>`, and
   `git checkout pull_<id>`.
2. **Patch.** Edit two files with `sed -i`:
   - `s/name: snapweb/name: snapweb-<id>/` on snapcraft.yaml;
   - `s/:4200/:4<id>/` on cmd/snapweb/main.go.

   Each script rewrites the first occurrence on every line, so the build
   gets its own snap name and port.
3. **Snap.** Hand the directory to a snapcrafter. The real one runs
   `snapcraft` and returns the first `*.snap` file it finds.
4. **Return early.** Every stage returns `("", err)` at the first error.

The model has these modules:

| file | module | what it holds |
|---|---|---|
| text.dfy | `Wrappers`, `Text` | `Option`; literal substring search and first-occurrence replacement |
| sed.dfy | `Sed` | the literal fragment of sed's `s/PATTERN/REPLACEMENT/`: script text, its reading, its effect on a file's lines |
| git.dfy | `Git` | file trees, remotes, fetch refspecs split at the last colon |
| host.dfy | `Host` | the external commands and what each does to a checkout (`Step`); fail-fast execution of a command list (`RunPlan`); the temporary directory as a `Workspace` object |
| snapcraft.dfy | `Snapcraft` | `Snapcraft.Snap` |
| repo.dfy | `Repo` | `clone`, `patch` and `GetSnap` as module-level methods that create (`clone`, `GetSnap`) or take (`patch`) a `Host.Workspace` object and run commands in it, proved equal to the reference function `Pipeline`; lemmas on when each stage succeeds and what it leaves behind |
| handlers.dfy | `Handlers` | the snapd client, the response, the `deploy` and `remove` handlers and the router |

Everything outside the process is a parameter of type `Host.Env`:

- the repositories each URL reaches;
- the commands that fail for reasons the model does not look into
  (network, disk, a failing build);
- what globbing finds after a build;
- what sed makes of a file under a script outside the literal fragment.

Inside the fragment, sed's effect is computed. The name `ioutil.TempDir`
picks (or its failure) is a parameter too. A Go panic is an explicit
outcome (`Host.Outcome.Panic`).

## Model

| member | source | states |
|---|---|---|
| Sed.ParseScript | repo/repo.go:80-87 | reading back the script `s/p/r/` of a literal substitution gives exactly that substitution |
| Sed.ScriptOfParse | repo/repo.go:80-87 | a script that is read as a substitution is exactly that substitution's script, so writing and reading scripts are inverse |
| Sed.ApplyPerLine | repo/repo.go:80-87 | `sed -i` rewrites each line separately; a line without the pattern is kept; a line with it changes only at the first occurrence |
| Host.EditFile | repo/repo.go:80-82 | `sed -i` with a literal script succeeds exactly when the file exists, whether or not any line holds the pattern; that a no-match file is kept line for line is `Sed.ApplyPerLine`, and the patch as a whole is `Repo.PatchRewritesTwoFiles` |
| Sed.ApplyToPatternLine | repo/repo_test.go:122-154 | a file whose only line is the pattern becomes the single line of the replacement |
| Text.ReplaceFirst | repo/repo.go:80-87 | no occurrence: the line is unchanged; otherwise the leftmost occurrence is cut out and the replacement put in its place |
| Text.IndexOf | repo/repo.go:80-87 | the result is an occurrence with none before it, or there is no occurrence at all |
| Git.ParseRefspec | repo/repo.go:63 | a refspec splits at its last colon into a source and a colon-free destination that rejoin to the refspec; a refspec without a colon has no split |
| Git.ParseJoined | repo/repo.go:63 | `a:b` with a colon-free `b` splits into exactly `a` and `b` |
| Git.ParseJoinedSource | repo/repo.go:63 | whatever `b` holds, the split of `a:b` has a valid source name only when that source is `a` and the destination is `b` |
| Host.RunPlan | repo/repo.go:54-94 | fail-fast execution: the commands run are a prefix of the list; all of them ran unless one failed; a failure is the last command run |
| Host.RunPlanAppend | repo/repo.go:42-50 | running a list and, without a failure, a second list is running their concatenation, which is how `GetSnap` chains `clone` and `patch` |
| Host.RunPlanFailure | repo/repo.go:59-74 | the failure reported is the first one: every earlier command succeeded, the failing one failed in the state they left, and that state is kept |
| Host.Workspace.Run | repo/repo.go:59-62 | running a command reports success exactly when it succeeds, moves the checkout to the command's result only then, and logs the command |
| Snapcraft.SnapPattern | snapcraft/snapcraft.go:44 | the glob pattern `<dir>/*.snap`, which `Snap` reports in its glob error (see `Snapcraft.Snap`); equal to `path.Join` for the clean temporary directory |
| Snapcraft.Snap | snapcraft/snapcraft.go:37-49 | a failing build returns `("", err)` without globbing; a bad pattern returns `("", err)`; success is a non-empty match list and returns its first path; an empty match list panics |
| Snapcraft.SnapIsGlobbed | snapcraft/snapcraft.go:44-48 | a successful snap path is one of the files the glob found |
| Snapcraft.FailedBuildIgnoresGlob | snapcraft/snapcraft.go:40-43 | after a failed build the glob result makes no difference |
| Repo.PullRef | repo/repo.go:63 | the merge ref `pull/<id>/merge`; `Repo.NamesOfId` proves it a valid ref name exactly for a colon-free id and never equal to the branch |
| Repo.Branch | repo/repo.go:69 | the local branch `pull_<id>`, the `fmt.Sprintf` value the checkout names; `Repo.RefspecNamesBranch` proves it is the fetch's destination |
| Repo.Refspec | repo/repo.go:63 | the merge ref, a colon, the branch; `Repo.RefspecIsSprintf` proves it is the `fmt.Sprintf` value, and `Repo.RefspecNamesBranch` and `Repo.RefspecSource` how git splits it |
| Repo.RefspecIsSprintf | repo/repo.go:63 | the refspec is exactly `pull/<id>/merge:pull_<id>`, the string `fmt.Sprintf` builds |
| Repo.YamlSubst | repo/repo.go:80 | the manifest substitution `name: snapweb` → `name: snapweb-<id>`; `Repo.ScriptsAreLiteral` proves it is what the yaml script means, and `Handlers.SnapNameMatchesManifest` that it writes the removed snap's name |
| Repo.MainSubst | repo/repo.go:87 | the port substitution `:4200` → `:4<id>`; `Repo.ScriptsAreLiteral` proves it is what the main.go script means |
| Repo.YamlScript | repo/repo.go:80 | the script written for the substitution; `Repo.ScriptsAreSprintf` proves it is the `fmt.Sprintf` value, `Repo.ScriptsAreLiteral` that it reads back as `YamlSubst` |
| Repo.MainScript | repo/repo.go:87 | the script written for the substitution; `Repo.ScriptsAreSprintf` proves it is the `fmt.Sprintf` value, `Repo.ScriptsAreLiteral` that it reads back as `MainSubst` |
| Repo.ScriptsAreSprintf | repo/repo.go:80-87 | the two scripts are exactly `s/name: snapweb/name: snapweb-<id>/` and `s/:4200/:4<id>/`, the strings `fmt.Sprintf` builds |
| Repo.ScriptsAreLiteral | repo/repo.go:80-87 | for an id without `/`, `&`, backslash or newline, the two scripts are the literal substitutions `name: snapweb` → `name: snapweb-<id>` and `:4200` → `:4<id>` |
| Repo.RefspecNamesBranch | repo/repo.go:63-69 | with a colon-free id the refspec fetches `pull/<id>/merge` into `pull_<id>`, the branch the checkout then asks for |
| Repo.RefspecSource | repo/repo.go:63 | for any id, the refspec's source is a valid ref name only when it is `pull/<id>/merge` with destination `pull_<id>` |
| Repo.NamesOfId | repo/repo.go:63-69 | the merge ref is a valid ref name exactly when the id has no colon, and then so is the local branch; the two names always differ |
| Repo.CloneCommands | repo/repo.go:59-71 | `git clone`, `git fetch origin <refspec>`, `git checkout pull_<id>`, in that order; what running them does is `Repo.CloneChecksOutPullRequest` and `Repo.Clone` |
| Repo.PatchCommands | repo/repo.go:80-89 | the yaml sed, then the main.go sed; what running them does is `Repo.PatchRewritesTwoFiles` and `Repo.Patch` |
| Repo.Plan | repo/repo.go:43-50 | the clone commands followed by the patch commands; `Host.RunPlanAppend` proves that running it is running the two in turn, stopping after a failing clone |
| Repo.Clone | repo/repo.go:54-76 | no temporary directory: `("", err)`; otherwise the checkout and the commands run are those of fail-fast clone, fetch, checkout; the result is the directory or `("", err)` naming the failing command |
| Repo.CloneChecksOutPullRequest | repo/repo.go:59-75 | the clone succeeds exactly when the URL is reachable, the merge ref exists, the branch it is fetched into is not the one checked out, and no git command fails otherwise; it then leaves the merge ref's tree checked out as `pull_<id>` with the URL as origin |
| Repo.Patch | repo/repo.go:78-94 | the checkout and commands run are those of the two seds run fail-fast; the result is the same path, or `("", err)` naming the failing sed |
| Repo.PatchRewritesTwoFiles | repo/repo.go:78-94 | patch succeeds exactly when both files exist and neither sed fails otherwise; only the working tree changes; on success both files are rewritten, after a failing second sed only the first is, after a failing first sed nothing is |
| Repo.PatchedFilesChangeTwo | repo/repo.go:79-87 | a successful patch keeps the set of files, rewrites snapcraft.yaml and main.go line by line, and leaves every other file untouched |
| Repo.Pipeline | repo/repo.go:42-52 | a `GetSnap` that ends in an error returns the empty path |
| Repo.Built | repo/repo.go:42-58 | a `GetSnap` that ends in an error, including a failed `TempDir`, returns the empty path |
| Repo.GetSnap | repo/repo.go:42-52 | the outcome, the directory's final state and the commands run are those of `Pipeline`, and no directory exists when `TempDir` failed |
| Repo.Snapped | snapcraft/snapcraft.go:37-48 | what `r.snapcrafter.Snap(path)` does: a nil snapcrafter panics, the stand-in returns the path, the tool runs `snapcraft` and then `Snapcraft.Snap`; `Repo.CallSnapcrafter` and `Repo.SuccessReturnsSnapcrafterResult` state it |
| Repo.CallSnapcrafter | repo/repo.go:51 | the snapcrafter's call leaves the checkout as it was and returns what the snapcrafter returns: a nil snapcrafter panics, the stand-in returns the path, the tool runs `snapcraft` and snaps |
| Repo.CloneFailureStopsPipeline | repo/repo.go:43-46 | after a failing clone step no further command runs, and `GetSnap` returns `("", err)` for that command |
| Repo.PatchFailureSkipsSnap | repo/repo.go:47-50 | after a successful clone, a failing sed ends `GetSnap` with `("", err)` and the snapcrafter is never called |
| Repo.SuccessReturnsSnapcrafterResult | repo/repo.go:51 | when clone and patch succeed, `GetSnap` returns what the snapcrafter returns for the patched directory; the path-returning stand-in returns the clone directory |
| Repo.ProductionRepoPanics | handlers/handlers.go:53 | a `GetSnap` on a `Repo` without a snapcrafter panics exactly when clone and patch succeed |
| Repo.FixturePatched | repo/repo_test.go:140-153 | the fixture's `name: snapweb` becomes exactly `name: snapweb-<id>` and its `:4200` exactly `:4<id>` |
| Repo.FixtureClones | repo/repo_test.go:87-119 | cloning a repository whose HEAD is `pull/<id>/merge` succeeds, with that tree checked out as `pull_<id>` and the URL as origin |
| Repo.FixturePatches | repo/repo_test.go:122-154 | patching the fixture succeeds and gives the patched fixture, leaving the branch and the origin alone |
| Repo.GetSnapPatchesFixture | repo/repo_test.go:122-154 | end to end on the fixture with the stand-in snapcrafter: the clone directory comes back without error, the whole plan ran, and the patched merge-ref tree is checked out |
| Handlers.SnapName | handlers/handlers.go:82 | `snapweb-<id>`, the name `remove` asks snapd for; `Handlers.SnapNameMatchesManifest` proves it is the name the patch writes, `Handlers.SnapNameInjective` that ids do not share one |
| Handlers.SnapNameMatchesManifest | handlers/handlers.go:82 | the name `remove` asks snapd for is the name the yaml patch writes: `name: snapweb` becomes `name: snapweb-<id>` |
| Handlers.SnapNameInjective | handlers/handlers.go:82 | different pull requests give different snap names |
| Handlers.RemoveFirst | handlers/handlers_test.go:40-48 | removing a name that is not installed changes nothing; otherwise exactly one entry goes |
| Handlers.RemoveFirstCount | handlers/handlers_test.go:40-48 | the multiset of installed snaps loses exactly one copy of the name when there is one, and nothing else |
| Handlers.RemoveFirstAt | handlers/handlers_test.go:40-48 | the entry removed is the first one with that name; everything before and after it is kept in order |
| Handlers.RemoveUndoesInstall | handlers/handlers_test.go:35-48 | on the test fake's list, appending a string that was not there and then removing that same string restores the list; this is not a PUT-then-DELETE round trip, since PUT installs a file path and DELETE removes the name `snapweb-<id>` |
| Handlers.SnapdClient.InstallPath | handlers/handlers_test.go:35-38 | the path is appended to the installed snaps and the request is logged |
| Handlers.SnapdClient.Remove | handlers/handlers_test.go:40-48 | the installed snaps become `RemoveFirst` of the old list and the request is logged |
| Handlers.SnapperResult | repo/repo.go:29-32 | the test stand-in returns `(prID, nil)`; a builder's error comes with the empty path |
| Handlers.Response.WriteHeader | handlers/handlers.go:77 | the first status written is kept and later ones are ignored, as `http.ResponseWriter` does; `Handlers.Handler.Deploy` and `Handlers.Handler.Remove` write 202 with it |
| Handlers.Handler.NewHandler | handlers/handlers.go:49-55 | a new handler uses the given snapd client and URL and a `Repo` with no snapcrafter |
| Handlers.Handler.Deploy | handlers/handlers.go:66-78 | unless building panics, snapd gets exactly one install request, for whatever path came back (the empty path after an error), and the answer is 202; a panic sends nothing |
| Handlers.Handler.Remove | handlers/handlers.go:80-88 | snapd gets exactly one removal request, for `snapweb-<prID>`, and the answer is 202 |
| Handlers.Handler.Serve | handlers/handlers.go:57-64 | PUT behaves as `deploy` and DELETE as `remove` |

## Left out

- **Entry points.** cmd/deployer/main.go and `InitURLHandlers` (socket, logger, `http.Handle`) are not part of this model. The router is modelled only as the PUT/DELETE dispatch of `Handler.Serve`. The answer of gorilla/mux to other methods depends on its version, which is not part of this model.
- **External programs.** git, sed, snapcraft, `ioutil.TempDir` and `filepath.Glob` are not run.
  - Their outcomes come from `Host.Env`, and the temporary directory's name is a parameter.
  - A command can fail for any reason the environment records.
  - Running the same command list twice in one environment gives the same result.
- **sed.** Scripts are interpreted only in the literal fragment: no metacharacters in the pattern; no `&`, backslash, `/` or newline in the replacement.
  - A pull-request id outside `Repo.SafeId` produces scripts outside that fragment. Their effect is taken from the environment, so the lemmas about the substitutions' meaning require `SafeId`.
  - A file's content is a sequence of lines. A trailing newline, and sed's handling of a missing one, are not modelled.
- **git.** A repository is a set of named branches of file trees, with remote HEAD and origin. These are not modelled:
  - commits and history;
  - fetch's fast-forward checks and reference DWIM beyond exact branch names;
  - ref-name rules other than "no colon";
  - a clone into a non-empty directory, other than as a failure.
- **Handlers.Handler.Deploy:** a panic is modelled as the request ending with nothing sent. The recovery in net/http and the closed connection are not modelled.
- **Handlers.SnapdClient:** follows the service's own test fake: a list of installed snaps and a log of requests. snapd's real installation, its errors and its asynchronous changes are not modelled, because the handlers ignore both results.
- **Handlers.Handler.NewHandler:** the snapd connection `client.New(nil)` makes is passed in rather than created.
- **Snapcraft.SnapPattern:** joins with a plain `/`. `path.Join` also cleans its result: an empty path gives `*.snap`, and a trailing `/` is not doubled. The two agree for the clean absolute path `ioutil.TempDir` returns.
- **Concurrency.** Concurrent requests and the directories they create are not modelled. Each build has its own fresh `Workspace`, and nothing else touches it.
- **Clean-up.** The temporary directory is never removed by the source. The model keeps the `Workspace` the build returns.
