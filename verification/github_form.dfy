/** The repository form: the token and `owner/repo` fields, and the submit
    handler that validates them before asking the page to generate. */
module GitHubForm {
  import opened Common
  import Text

  /** The argument of `onGenerate`. */
  datatype Payload = Payload(token: string, repoOwner: string, repoName: string)

  /** What one submission does: raise an error toast, or call `onGenerate`. */
  datatype Submission = Rejected(notice: Notice) | Generate(payload: Payload)

  const MissingTokenNotice: Notice :=
    Notice("Missing Personal Access Token", "Please enter your GitHub Personal Access Token", true)
  const InvalidRepoNotice: Notice :=
    Notice("Invalid Repository Format", "Please enter repository in the format: owner/repo", true)

  predicate NoSlash(s: string) {
    forall i :: 0 <= i < |s| ==> s[i] != '/'
  }

  /** The language of `^([^/]+)\/([^/]+)$` (no flags, so `^` and `$` anchor the
      whole input and `[^/]` also matches line terminators): a slash with a
      non-empty, slash-free run of characters on each side. */
  ghost predicate MatchesRepoPattern(s: string) {
    exists i :: 0 < i < |s| - 1 && s[i] == '/' && NoSlash(s[..i]) && NoSlash(s[i + 1..])
  }

  function CountSlashes(s: string): nat {
    if s == [] then 0 else (if s[0] == '/' then 1 else 0) + CountSlashes(s[1..])
  }

  /** Index of the first slash, if any. */
  function FirstSlash(s: string): (r: Option<nat>)
    ensures r.None? ==> NoSlash(s)
    ensures r.Some? ==> r.value < |s| && s[r.value] == '/' && NoSlash(s[..r.value])
  {
    if s == [] then None
    else if s[0] == '/' then Some(0)
    else match FirstSlash(s[1..])
      case None => None
      case Some(k) => Some(k + 1)
  }

  /** `repoInput.match(/^([^/]+)\/([^/]+)$/)`, keeping the two capture groups. */
  function ParseRepo(s: string): (r: Option<RepoRef>)
    ensures r.Some? ==> r.value.owner != [] && r.value.name != []
    ensures r.Some? ==> NoSlash(r.value.owner) && NoSlash(r.value.name)
    ensures r.Some? ==> r.value.owner + "/" + r.value.name == s
  {
    match FirstSlash(s)
    case None => None
    case Some(i) =>
      if 0 < i < |s| - 1 && NoSlash(s[i + 1..]) then
        assert s == s[..i] + "/" + s[i + 1..];
        Some(RepoRef(s[..i], s[i + 1..]))
      else None
  }

  /** A slash with none before it is the one `FirstSlash` finds. */
  lemma {:induction false} FirstSlashAt(s: string, j: nat)
    requires j < |s| && s[j] == '/' && NoSlash(s[..j])
    ensures FirstSlash(s) == Some(j)
  {
    if j > 0 {
      assert s[0] == s[..j][0];
      assert s[1..][..j - 1] == s[..j][1..];
      FirstSlashAt(s[1..], j - 1);
    }
  }

  /** The parser accepts exactly the language of the regular expression. */
  lemma ParseRepoMatchesPattern(s: string)
    ensures ParseRepo(s).Some? <==> MatchesRepoPattern(s)
  {
    if MatchesRepoPattern(s) {
      var j :| 0 < j < |s| - 1 && s[j] == '/' && NoSlash(s[..j]) && NoSlash(s[j + 1..]);
      FirstSlashAt(s, j);
    }
    if ParseRepo(s).Some? {
      var i := FirstSlash(s).value;
      assert 0 < i < |s| - 1 && s[i] == '/' && NoSlash(s[..i]) && NoSlash(s[i + 1..]);
    }
  }

  /** Joining a valid owner and name with a slash parses back to the same pair,
      with nothing trimmed or re-cased. */
  lemma ParseRepoOfJoin(owner: string, name: string)
    requires owner != [] && name != [] && NoSlash(owner) && NoSlash(name)
    ensures ParseRepo(owner + "/" + name) == Some(RepoRef(owner, name))
  {
    var s := owner + "/" + name;
    assert s[..|owner|] == owner && s[|owner| + 1..] == name;
    ParseRepoMatchesPattern(s);
    var r := ParseRepo(s).value;
    assert r.owner == s[..|r.owner|];
    assert r.name == s[|r.owner| + 1..];
  }

  lemma CountSlashesAppend(a: string, b: string)
    ensures CountSlashes(a + b) == CountSlashes(a) + CountSlashes(b)
  {
    if a == [] {
      assert a + b == b;
    } else {
      assert (a + b)[1..] == a[1..] + b;
      CountSlashesAppend(a[1..], b);
    }
  }

  lemma {:induction false} NoSlashIffNoCount(s: string)
    ensures NoSlash(s) <==> CountSlashes(s) == 0
  {
    if s != [] {
      NoSlashIffNoCount(s[1..]);
      if NoSlash(s[1..]) && s[0] != '/' {
        forall i | 0 <= i < |s| ensures s[i] != '/' {
          if i > 0 { assert s[i] == s[1..][i - 1]; }
        }
      }
    }
  }

  lemma CountSlashesAround(s: string, i: nat)
    requires i < |s|
    ensures CountSlashes(s) == CountSlashes(s[..i]) + (if s[i] == '/' then 1 else 0) + CountSlashes(s[i + 1..])
  {
    assert s == s[..i] + [s[i]] + s[i + 1..];
    CountSlashesAppend(s[..i] + [s[i]], s[i + 1..]);
    CountSlashesAppend(s[..i], [s[i]]);
  }

  /** The pattern in words: exactly one slash, and it is neither the first nor
      the last character. */
  lemma PatternIffOneInnerSlash(s: string)
    ensures MatchesRepoPattern(s) <==> CountSlashes(s) == 1 && s[0] != '/' && s[|s| - 1] != '/'
  {
    if MatchesRepoPattern(s) {
      var i :| 0 < i < |s| - 1 && s[i] == '/' && NoSlash(s[..i]) && NoSlash(s[i + 1..]);
      CountSlashesAround(s, i);
      NoSlashIffNoCount(s[..i]);
      NoSlashIffNoCount(s[i + 1..]);
      assert s[0] == s[..i][0];
      assert s[|s| - 1] == s[i + 1..][|s| - i - 2];
    }
    if |s| > 0 && CountSlashes(s) == 1 && s[0] != '/' && s[|s| - 1] != '/' {
      OneInnerSlashMatches(s);
    }
  }

  lemma OneInnerSlashMatches(s: string)
    requires |s| > 0 && CountSlashes(s) == 1 && s[0] != '/' && s[|s| - 1] != '/'
    ensures MatchesRepoPattern(s)
  {
    NoSlashIffNoCount(s);
    var i := FirstSlash(s).value;
    CountSlashesAround(s, i);
    NoSlashIffNoCount(s[i + 1..]);
    assert 0 < i < |s| - 1 && s[i] == '/' && NoSlash(s[..i]) && NoSlash(s[i + 1..]);
  }

  /** `handleSubmit`: the token check comes first, then the repository check,
      and only when both pass is `onGenerate` called, with the token exactly as
      typed and the two captured segments. */
  function HandleSubmit(token: string, repoInput: string): (r: Submission)
    ensures Text.IsBlank(token) ==> r == Rejected(MissingTokenNotice)
    ensures !Text.IsBlank(token) && !MatchesRepoPattern(repoInput) ==> r == Rejected(InvalidRepoNotice)
    ensures r.Generate? <==> !Text.IsBlank(token) && MatchesRepoPattern(repoInput)
    ensures r.Generate? ==> r.payload.token == token
    ensures r.Generate? ==> r.payload.repoOwner + "/" + r.payload.repoName == repoInput
    ensures r.Generate? ==> r.payload.repoOwner != [] && r.payload.repoName != []
    ensures r.Generate? ==> NoSlash(r.payload.repoOwner) && NoSlash(r.payload.repoName)
  {
    ParseRepoMatchesPattern(repoInput);
    if Text.IsBlank(token) then Rejected(MissingTokenNotice)
    else match ParseRepo(repoInput)
      case None => Rejected(InvalidRepoNotice)
      case Some(repo) => Generate(Payload(token, repo.owner, repo.name))
  }

  /** A usable submission reaches `onGenerate` with the token as typed
      (surrounding spaces included) and the owner and name verbatim. */
  lemma SubmitForwardsVerbatim(token: string, owner: string, name: string)
    requires !Text.AllWhitespace(token)
    requires owner != [] && name != [] && NoSlash(owner) && NoSlash(name)
    ensures HandleSubmit(token, owner + "/" + name) == Generate(Payload(token, owner, name))
  {
    Text.BlankIffAllWhitespace(token);
    ParseRepoOfJoin(owner, name);
  }

  /** The form component: two text fields, overwritten by their change
      handlers, and the submit button that is disabled while loading. */
  class Form {
    var token: string
    var repoInput: string

    constructor ()
      ensures token == "" && repoInput == ""
    {
      token := "";
      repoInput := "";
    }

    /** The token field's onChange. */
    method SetToken(value: string)
      modifies this
      ensures token == value && repoInput == old(repoInput)
    {
      token := value;
    }

    /** The repository field's onChange. */
    method SetRepoInput(value: string)
      modifies this
      ensures repoInput == value && token == old(token)
    {
      repoInput := value;
    }

    /** Submitting the form: nothing happens while the button is disabled
        (`isLoading`); otherwise `handleSubmit` runs on the current fields. */
    method Submit(isLoading: bool) returns (r: Option<Submission>)
      ensures r.None? <==> isLoading
      ensures r.Some? ==> r.value == HandleSubmit(token, repoInput)
    {
      if isLoading {
        r := None;
      } else {
        r := Some(HandleSubmit(token, repoInput));
      }
    }
  }
}
