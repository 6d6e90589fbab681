/** The HTTP service: `PUT /{prID}` builds the pull request's snap and hands
    it to snapd for installation, `DELETE /{prID}` asks snapd to remove it.
    Both answer 202 Accepted whatever happened. */
module Handlers {
  import opened Wrappers
  import opened Host
  import Repo
  import Sed

  /** `http.StatusAccepted`. */
  const StatusAccepted := 202

  /** `fmt.Sprintf("snapweb-%s", prID)`: the snap a pull request is deployed as. */
  function SnapName(prID: string): string
  {
    "snapweb-" + prID
  }

  /** The name `remove` asks snapd for is the name `patch` writes into the
      manifest: the line `name: snapweb` becomes `name: ` followed by it. */
  lemma SnapNameMatchesManifest(prID: string)
    requires Repo.SafeId(prID)
    ensures (Repo.ScriptsAreLiteral(prID);
      Sed.Apply(Repo.YamlSubst(prID), ["name: snapweb"]) == ["name: " + SnapName(prID)])
  {
    Repo.ScriptsAreLiteral(prID);
    Sed.ApplyToPatternLine(Repo.YamlSubst(prID));
    assert "name: " + "snapweb-" == "name: snapweb-";
    assert "name: " + SnapName(prID) == ("name: " + "snapweb-") + prID;
  }

  /** Different pull requests are deployed as different snaps. */
  lemma SnapNameInjective(a: string, b: string)
    ensures SnapName(a) == SnapName(b) <==> a == b
  {
    if SnapName(a) == SnapName(b) {
      assert a == SnapName(a)[8..];
      assert b == SnapName(b)[8..];
    }
  }

  /** The installed snaps after removing `x`: its first occurrence is deleted,
      and nothing happens when it is not installed. */
  function RemoveFirst(s: seq<string>, x: string): (r: seq<string>)
    ensures x !in s ==> r == s
    ensures x in s ==> |r| == |s| - 1
  {
    if s == [] then []
    else if s[0] == x then s[1..]
    else [s[0]] + RemoveFirst(s[1..], x)
  }

  /** Removal takes away exactly one copy of `x`, when there is one, and nothing else. */
  lemma {:induction false} RemoveFirstCount(s: seq<string>, x: string)
    ensures multiset(RemoveFirst(s, x)) == multiset(s) - multiset{x}
  {
    if s != [] {
      assert s == [s[0]] + s[1..];
      if s[0] != x {
        RemoveFirstCount(s[1..], x);
      }
    }
  }

  /** Where the deletion happens: before the first `x`, everything is kept;
      after it, everything is kept. */
  lemma {:induction false} RemoveFirstAt(s: seq<string>, x: string, i: nat)
    requires i < |s| && s[i] == x && x !in s[..i]
    ensures RemoveFirst(s, x) == s[..i] + s[i + 1..]
  {
    if i > 0 {
      assert s[0] in s[..i];
      assert s[1..][..i - 1] == s[1..i];
      RemoveFirstAt(s[1..], x, i - 1);
      assert s[..i] == [s[0]] + s[1..i];
    }
  }

  /** Removing a snap right after installing it, when it was not installed
      before, restores the previous list. */
  lemma {:induction false} RemoveUndoesInstall(s: seq<string>, x: string)
    requires x !in s
    ensures RemoveFirst(s + [x], x) == s
  {
    assert (s + [x])[|s|] == x;
    assert (s + [x])[..|s|] == s;
    RemoveFirstAt(s + [x], x, |s|);
    assert (s + [x])[|s| + 1..] == [];
  }

  /** A request the handler sends to snapd. */
  datatype Call = InstallPathCall(path: string) | RemoveCall(name: string)

  /** The snapd client, as the service's own tests fake it: the list of
      installed snaps, and every request sent, in order. Errors from snapd
      are never looked at by the handlers, so none are modelled. */
  class SnapdClient {
    var installed: seq<string>
    var calls: seq<Call>

    constructor (installed: seq<string>)
      ensures this.installed == installed && calls == []
    {
      this.installed := installed;
      calls := [];
    }

    /** `InstallPath(path, nil)`: installs the snap file at `path`. */
    method InstallPath(path: string)
      modifies this
      ensures installed == old(installed) + [path]
      ensures calls == old(calls) + [InstallPathCall(path)]
    {
      installed := installed + [path];
      calls := calls + [InstallPathCall(path)];
    }

    /** `Remove(name, nil)`: removes the first installed snap called `name`. */
    method Remove(name: string)
      modifies this
      ensures installed == RemoveFirst(old(installed), name)
      ensures calls == old(calls) + [RemoveCall(name)]
    {
      var i := 0;
      while i < |installed| && installed[i] != name
        invariant 0 <= i <= |installed|
        invariant name !in installed[..i]
      {
        assert installed[..i + 1] == installed[..i] + [installed[i]];
        i := i + 1;
      }
      if i < |installed| {
        RemoveFirstAt(installed, name, i);
        installed := installed[..i] + installed[i + 1..];
      } else {
        assert installed[..i] == installed;
      }
      calls := calls + [RemoveCall(name)];
    }
  }

  /** The status line of one response; `None` until a header is written. */
  class Response {
    var status: Option<int>

    constructor ()
      ensures status == None
    {
      status := None;
    }

    /** `w.WriteHeader(code)`: only the first call sets the status. */
    method WriteHeader(code: int)
      modifies this
      ensures status == if old(status).None? then Some(code) else old(status)
    {
      if status.None? {
        status := Some(code);
      }
    }
  }

  /** A `repo.Snapper`: the deployer's `Repo`, or the stand-in of the
      service's own tests that answers `(prID, nil)` without building. */
  datatype Snapper = Builder(repo: Repo.Repo) | EchoId

  /** What `GetSnap(gitURL, prID)` returns for a snapper. */
  function SnapperResult(sn: Snapper, env: Env, gitURL: string, prID: string, tmp: Option<string>): (r: Outcome)
    ensures sn.EchoId? ==> r == Done(prID, None)
    ensures r.Done? && r.err.Some? ==> r.path == ""
  {
    match sn
    case Builder(repo) => Repo.Built(env, repo.snapcrafter, gitURL, prID, tmp)
    case EchoId => Done(prID, None)
  }

  /** The two routes of `makeMuxer`. */
  datatype Method = Put | Delete

  /** The service: the snapd client, the repository it deploys from, and how it builds snaps. */
  class Handler {
    const client: SnapdClient
    const gitURL: string
    const snapper: Snapper

    /** A handler with all three parts given, as the tests' `Init` sets them. */
    constructor (client: SnapdClient, gitURL: string, snapper: Snapper)
      ensures this.client == client && this.gitURL == gitURL && this.snapper == snapper
    {
      this.client := client;
      this.gitURL := gitURL;
      this.snapper := snapper;
    }

    /** `NewHandler(gitURL)`: the system's snapd client and a `Repo` with no
        snapcrafter set. */
    static method NewHandler(snapd: SnapdClient, gitURL: string) returns (h: Handler)
      ensures fresh(h) && h.client == snapd && h.gitURL == gitURL
      ensures h.snapper == Builder(Repo.Repo(Repo.Unset))
    {
      h := new Handler(snapd, gitURL, Builder(Repo.Repo(Repo.Unset)));
    }

    /** `deploy`: build the snap, install whatever path came back (the empty
        path after an error, since both errors are ignored), answer 202. A
        panic while building ends the request before anything is sent. */
    method Deploy(w: Response, prID: string, env: Env, tmp: Option<string>)
      modifies client, w
      ensures var out := SnapperResult(snapper, env, gitURL, prID, tmp);
        if out.Panic? then
          client.installed == old(client.installed) && client.calls == old(client.calls) && w.status == old(w.status)
        else
          && client.installed == old(client.installed) + [out.path]
          && client.calls == old(client.calls) + [InstallPathCall(out.path)]
          && w.status == if old(w.status).None? then Some(StatusAccepted) else old(w.status)
    {
      var out: Outcome;
      match snapper {
        case Builder(repo) =>
          var ws;
          out, ws := Repo.GetSnap(env, repo, gitURL, prID, tmp);
        case EchoId =>
          out := Done(prID, None);
      }
      if out.Panic? {
        return;
      }
      client.InstallPath(out.path);
      w.WriteHeader(StatusAccepted);
    }

    /** `remove`: ask snapd to remove `snapweb-<prID>`, answer 202. */
    method Remove(w: Response, prID: string)
      modifies client, w
      ensures client.installed == RemoveFirst(old(client.installed), SnapName(prID))
      ensures client.calls == old(client.calls) + [RemoveCall(SnapName(prID))]
      ensures w.status == if old(w.status).None? then Some(StatusAccepted) else old(w.status)
    {
      client.Remove(SnapName(prID));
      w.WriteHeader(StatusAccepted);
    }

    /** The router of `makeMuxer`: `PUT /{prID}` to `deploy`, `DELETE /{prID}` to `remove`. */
    method Serve(w: Response, m: Method, prID: string, env: Env, tmp: Option<string>)
      modifies client, w
      ensures m == Delete ==>
        && client.installed == RemoveFirst(old(client.installed), SnapName(prID))
        && client.calls == old(client.calls) + [RemoveCall(SnapName(prID))]
        && w.status == if old(w.status).None? then Some(StatusAccepted) else old(w.status)
      ensures m == Put ==>
        var out := SnapperResult(snapper, env, gitURL, prID, tmp);
        if out.Panic? then
          client.installed == old(client.installed) && client.calls == old(client.calls) && w.status == old(w.status)
        else
          && client.installed == old(client.installed) + [out.path]
          && client.calls == old(client.calls) + [InstallPathCall(out.path)]
          && w.status == if old(w.status).None? then Some(StatusAccepted) else old(w.status)
    {
      match m
      case Put => Deploy(w, prID, env, tmp);
      case Delete => Remove(w, prID);
    }
  }
}
