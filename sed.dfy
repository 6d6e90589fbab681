/** The fragment of sed's `s` command that the deployer uses: a script
    `s/PATTERN/REPLACEMENT/` with no flags, whose pattern has no basic
    regular expression metacharacters and whose replacement has no `&` and no
    backslash, so that both stand for themselves. */
module Sed {
  import opened Wrappers
  import Text

  /** A literal substitution: replace `pattern` by `replacement`. */
  datatype Subst = Subst(pattern: string, replacement: string)

  /** A pattern that matches only itself in a basic regular expression. The
      empty pattern means "the last regular expression used" to sed, so it
      is outside the fragment as well. */
  predicate LiteralPattern(p: string)
  {
    p != [] && forall i :: 0 <= i < |p| ==> PatternChar(p[i])
  }

  /** Not a metacharacter of a basic regular expression, the delimiter or a newline. */
  predicate PatternChar(c: char)
  {
    c != '\\' && c != '.' && c != '*' && c != '[' && c != ']' && c != '^' && c != '$' && c != '/' && c != '\n'
  }

  /** Not special in a replacement: not `&`, a backslash, the delimiter or a newline. */
  predicate ReplacementChar(c: char)
  {
    c != '\\' && c != '&' && c != '/' && c != '\n'
  }

  /** A replacement that sed copies verbatim: no `&` (the matched text), no
      backslash escape, no delimiter and no newline. */
  predicate LiteralReplacement(r: string)
  {
    forall i :: 0 <= i < |r| ==> ReplacementChar(r[i])
  }

  /** A literal replacement followed by more literal text is literal. */
  lemma LiteralReplacementConcat(a: string, b: string)
    requires LiteralReplacement(a) && LiteralReplacement(b)
    ensures LiteralReplacement(a + b)
  {
    forall i | 0 <= i < |a + b| ensures ReplacementChar((a + b)[i]) {
      if i >= |a| { assert (a + b)[i] == b[i - |a|]; }
    }
  }

  predicate Literal(sub: Subst)
  {
    LiteralPattern(sub.pattern) && LiteralReplacement(sub.replacement)
  }

  /** The script text of a substitution, as `fmt.Sprintf("s/%s/%s/", ...)` writes it. */
  function Script(sub: Subst): string
  {
    "s/" + sub.pattern + "/" + sub.replacement + "/"
  }

  /** Reads a script of the modelled fragment; `None` for any other script. */
  function Parse(script: string): (r: Option<Subst>)
    ensures r.Some? ==> Literal(r.value)
  {
    if |script| < 2 || script[..2] != "s/" then None
    else
      var body := script[2..];
      match Text.IndexOf(body, "/")
      case None => None
      case Some(i) =>
        var rest := body[i + 1..];
        match Text.IndexOf(rest, "/")
        case None => None
        case Some(j) =>
          var sub := Subst(body[..i], rest[..j]);
          if rest[j + 1..] == [] && Literal(sub) then Some(sub) else None
  }

  /** In a string without `/`, the first `/` of `p + "/" + q` is the one after `p`. */
  lemma SlashAfter(p: string, q: string)
    requires forall i :: 0 <= i < |p| ==> p[i] != '/'
    ensures Text.IndexOf(p + "/" + q, "/") == Some(|p|)
  {
    var s := p + "/" + q;
    assert s[|p|..|p| + 1] == "/";
    forall j: nat | j < |p| ensures !Text.OccursAt(s, "/", j) {
      assert s[j..j + 1][0] == p[j];
    }
    assert Text.FirstOccurrence(s, "/", |p|);
  }

  /** Reading the script of a literal substitution gives that substitution back. */
  lemma {:induction false} ParseScript(sub: Subst)
    requires Literal(sub)
    ensures Parse(Script(sub)) == Some(sub)
  {
    var p, q := sub.pattern, sub.replacement;
    var script := Script(sub);
    assert script[..2] == "s/";
    var body := script[2..];
    assert body == p + "/" + (q + "/");
    SlashAfter(p, q + "/");
    var rest := body[|p| + 1..];
    assert rest == q + "/" + "";
    SlashAfter(q, "");
    assert body[..|p|] == p;
    assert rest[..|q|] == q;
  }

  /** The other direction: a script the model reads is exactly the script of
      what it read, so `Script` and `Parse` are inverse on the fragment. */
  lemma {:induction false} ScriptOfParse(script: string)
    requires Parse(script).Some?
    ensures Script(Parse(script).value) == script
  {
    var body := script[2..];
    var i := Text.IndexOf(body, "/").value;
    var rest := body[i + 1..];
    var j := Text.IndexOf(rest, "/").value;
    assert rest == rest[..j] + "/" + rest[j + 1..];
    assert body == body[..i] + "/" + rest;
    assert script == script[..2] + body;
  }

  /** `sed -i` with a literal substitution: every line of the file has the first
      occurrence of the pattern replaced; a file content is its lines joined
      by newlines, so no line holds a newline. */
  function Apply(sub: Subst, lines: seq<string>): (r: seq<string>)
    requires Literal(sub)
    ensures |r| == |lines|
  {
    seq(|lines|, i requires 0 <= i < |lines| => Text.ReplaceFirst(lines[i], sub.pattern, sub.replacement))
  }

  /** What a substitution does and does not touch: a line without the pattern
      is kept as it is, and a line with it changes only at its first
      occurrence. */
  lemma ApplyPerLine(sub: Subst, lines: seq<string>, n: nat)
    requires Literal(sub) && n < |lines|
    ensures (forall j: nat :: !Text.OccursAt(lines[n], sub.pattern, j)) ==> Apply(sub, lines)[n] == lines[n]
    ensures forall k: nat :: Text.FirstOccurrence(lines[n], sub.pattern, k) ==>
      Apply(sub, lines)[n] == lines[n][..k] + sub.replacement + lines[n][k + |sub.pattern|..]
  {
  }

  /** A file consisting of the single line `pattern` becomes the single line `replacement`. */
  lemma ApplyToPatternLine(sub: Subst)
    requires Literal(sub)
    ensures Apply(sub, [sub.pattern]) == [sub.replacement]
  {
    Text.ReplaceWhole(sub.pattern, sub.replacement);
  }
}
