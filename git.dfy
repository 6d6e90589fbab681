/** The parts of git that the deployer's three git commands depend on:
    repositories as named branches of file trees, and fetch refspecs. */
module Git {
  import opened Wrappers
  import Text

  /** A checked-out file tree: relative path to the file's lines. */
  type Tree = map<string, seq<string>>

  /** A reference name git accepts as a branch; git's check-ref-format forbids
      `:` in particular, which is what makes the `src:dst` split unambiguous.
      The other forbidden characters do not matter to this model. */
  predicate RefName(name: string)
  {
    name != [] && ':' !in name
  }

  /** A repository that can be cloned: its branches and the branch HEAD names. */
  datatype Remote = Remote(head: string, refs: map<string, Tree>)
  {
    predicate Valid()
    {
      forall name :: name in refs ==> RefName(name)
    }
  }

  /** Splits a fetch refspec `src:dst` at its last colon, as git does; a
      refspec without a colon names no local branch and is outside the model. */
  function ParseRefspec(spec: string): (r: Option<(string, string)>)
    ensures r.Some? ==> ':' !in r.value.1
    ensures r.Some? ==> spec == r.value.0 + ":" + r.value.1
    ensures r.None? <==> ':' !in spec
  {
    match Text.LastIndexOfChar(spec, ':')
    case None => None
    case Some(k) =>
      assert spec == spec[..k] + ":" + spec[k + 1..];
      Some((spec[..k], spec[k + 1..]))
  }

  /** For `a + ":" + b` with `b` colon-free the split yields exactly `a` and `b`. */
  lemma {:induction false} ParseJoined(a: string, b: string)
    requires ':' !in b
    ensures ParseRefspec(a + ":" + b) == Some((a, b))
  {
    var spec := a + ":" + b;
    var r := ParseRefspec(spec);
    assert spec[|a|] == ':';
    assert r.Some?;
    var k := Text.LastIndexOfChar(spec, ':').value;
    assert spec[k] == ':';
    assert forall j :: |a| < j < |spec| ==> spec[j] == b[j - |a| - 1];
    assert k == |a|;
    assert spec[..k] == a;
    assert spec[k + 1..] == b;
  }

  /** Whatever `b` holds, the split of `a + ":" + b` yields a valid source name
      only when it splits at the colon after `a`: a colon inside `b` moves
      the split into `b` and leaves that colon in the source. */
  lemma {:induction false} ParseJoinedSource(a: string, b: string)
    ensures ParseRefspec(a + ":" + b).Some?
    ensures var (src, dst) := ParseRefspec(a + ":" + b).value;
      RefName(src) ==> src == a && dst == b
  {
    var spec := a + ":" + b;
    assert spec[|a|] == ':';
    var (src, dst) := ParseRefspec(spec).value;
    assert forall j :: |src| < j < |spec| ==> spec[j] == dst[j - |src| - 1];
    assert |src| >= |a|;
    if |src| > |a| {
      assert src[|a|] == spec[|a|];
    } else {
      assert src == spec[..|a|] == a;
      assert dst == spec[|a| + 1..] == b;
    }
  }
}
