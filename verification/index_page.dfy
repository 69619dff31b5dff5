/** The page: the mock generator and `handleGenerate`, which drives the
    loading flag, the changelog and the repository details that the form and
    the changelog card are rendered from. */
module IndexPage {
  import opened Common
  import Text
  import GitHubForm
  import ChangelogOutput

  /** `generateChangelog`: the same five items whatever it is asked for. */
  function GenerateChangelog(owner: string, repo: string, token: Option<string>): (r: seq<ChangelogItem>)
    ensures |r| == 5
    ensures ItemTypes(r) == [Feature, Improvement, Bugfix, Feature, Improvement]
  {
    [ ChangelogItem(Feature, "Add authentication system",
        "Implemented OAuth 2.0 based authentication flow with GitHub and Google providers"),
      ChangelogItem(Improvement, "Enhance performance of data loading",
        "Optimized database queries and implemented caching to improve page load times by 40%"),
      ChangelogItem(Bugfix, "Fix user profile image upload",
        "Resolved issue where uploaded profile images weren't being processed correctly on mobile devices"),
      ChangelogItem(Feature, "Add dark mode support",
        "Implemented system-preference based theme switching with manual override option"),
      ChangelogItem(Improvement, "Refactor component structure",
        "Restructured components to improve code reusability and maintainability") ]
  }

  function ItemTypes(items: seq<ChangelogItem>): (r: seq<string>)
    ensures |r| == |items| && forall i :: 0 <= i < |items| ==> r[i] == items[i].itemType
  {
    seq(|items|, i requires 0 <= i < |items| => items[i].itemType)
  }

  function CountType(items: seq<ChangelogItem>, itemType: string): nat {
    if items == [] then 0
    else (if items[0].itemType == itemType then 1 else 0) + CountType(items[1..], itemType)
  }

  /** The owner, the repository name and the token have no influence on the
      generated list. */
  lemma GenerateIgnoresInputs(o1: string, r1: string, t1: Option<string>, o2: string, r2: string, t2: Option<string>)
    ensures GenerateChangelog(o1, r1, t1) == GenerateChangelog(o2, r2, t2)
  {
  }

  /** The mock list holds two features, two improvements and one bug fix. */
  lemma GeneratedCategoryCounts(owner: string, repo: string, token: Option<string>)
    ensures CountType(GenerateChangelog(owner, repo, token), Feature) == 2
    ensures CountType(GenerateChangelog(owner, repo, token), Improvement) == 2
    ensures CountType(GenerateChangelog(owner, repo, token), Bugfix) == 1
  {
    var items := GenerateChangelog(owner, repo, token);
    var types := ItemTypes(items);
    forall t | t == Feature || t == Improvement || t == Bugfix
      ensures CountType(items, t) == CountType(items[1..], t) + (if types[0] == t then 1 else 0)
      ensures CountType(items[1..], t) == CountType(items[2..], t) + (if types[1] == t then 1 else 0)
      ensures CountType(items[2..], t) == CountType(items[3..], t) + (if types[2] == t then 1 else 0)
      ensures CountType(items[3..], t) == CountType(items[4..], t) + (if types[3] == t then 1 else 0)
      ensures CountType(items[4..], t) == (if types[4] == t then 1 else 0)
    {
      assert items[1..][1..] == items[2..];
      assert items[2..][1..] == items[3..];
      assert items[3..][1..] == items[4..];
      assert items[4..][1..] == [];
    }
  }

  /** How the awaited generation settles: resolved with a list, or rejected. */
  datatype GenerationOutcome = Generated(items: seq<ChangelogItem>) | Failed

  /** The page's three state variables. */
  datatype PageState = PageState(isLoading: bool, changelog: Option<seq<ChangelogItem>>, repoDetails: Option<RepoRef>)

  /** The state after `settle`, and the toast it raised. */
  datatype Settled = Settled(state: PageState, notice: Notice)

  const InitialPage: PageState := PageState(false, None, None)

  const FailureNotice: Notice :=
    Notice("Error generating changelog", "Failed to fetch repository data or generate the changelog", true)

  /** The success toast: a default-variant toast whose description states
      the count (the digits after "Generated " read back as `count`) and ends
      with `owner/name`. */
  function SuccessNotice(count: nat, owner: string, name: string): (r: Notice)
    ensures r.title == "Changelog generated successfully!" && !r.destructive
    ensures var d := r.description;
            var k := |Text.DecimalString(count)|;
            |d| > 10 + k && d[..10] == "Generated " && d[10 + k] == ' '
            && Text.AllDigits(d[10..10 + k]) && Text.DigitsValue(d[10..10 + k]) == count
    ensures |r.description| >= |owner + "/" + name|
    ensures r.description[|r.description| - |owner + "/" + name|..] == owner + "/" + name
  {
    var digits := Text.DecimalString(count);
    var repo := owner + "/" + name;
    SuccessDescriptionShape(digits, repo);
    Notice("Changelog generated successfully!", "Generated " + digits + " changelog items for " + repo, false)
  }

  lemma SuccessDescriptionShape(digits: string, repo: string)
    ensures var d := "Generated " + digits + " changelog items for " + repo;
            |d| > 10 + |digits| && d[..10] == "Generated " && d[10..10 + |digits|] == digits
            && d[10 + |digits|] == ' ' && |d| >= |repo| && d[|d| - |repo|..] == repo
  {
    var pre := "Generated ";
    var mid := " changelog items for ";
    var d := pre + digits + mid + repo;
    assert |pre| == 10;
    assert d == pre + (digits + (mid + repo));
    assert d[..10] == pre;
    assert d[10..10 + |digits|] == digits;
    assert d[10 + |digits|] == mid[0];
    assert d[|d| - |repo|..] == repo;
  }

  /** `handleGenerate` up to its `await`: only the loading flag is set. */
  function Begin(s: PageState): (r: PageState)
    ensures r.isLoading && r.changelog == s.changelog && r.repoDetails == s.repoDetails
  {
    s.(isLoading := true)
  }

  /** `handleGenerate` after its `await`: on success the changelog and the
      repository details are replaced together and a success toast is raised;
      on failure both are kept and a destructive toast is raised; in both
      cases the `finally` clears the loading flag. */
  function Settle(s: PageState, owner: string, name: string, outcome: GenerationOutcome): (r: Settled)
    ensures !r.state.isLoading
    ensures outcome.Failed? ==> r.state.changelog == s.changelog && r.state.repoDetails == s.repoDetails
    ensures outcome.Failed? ==> r.notice == FailureNotice && r.notice.destructive
    ensures outcome.Generated? ==> r.state.changelog == Some(outcome.items)
    ensures outcome.Generated? ==> r.state.repoDetails == Some(RepoRef(owner, name))
    ensures outcome.Generated? ==> r.notice == SuccessNotice(|outcome.items|, owner, name)
  {
    match outcome
    case Generated(items) =>
      Settled(PageState(false, Some(items), Some(RepoRef(owner, name))), SuccessNotice(|items|, owner, name))
    case Failed =>
      Settled(s.(isLoading := false), FailureNotice)
  }

  /** While generation is in flight the card shows its placeholder, whatever
      changelog the page already holds. */
  lemma InFlightShowsPlaceholder(s: PageState, isoNow: string)
    ensures ChangelogOutput.Render(Begin(s).isLoading, Begin(s).changelog, Begin(s).repoDetails, isoNow)
         == ChangelogOutput.Placeholder(5)
  {
  }

  /** A failed generation leaves the card exactly as it was before. */
  lemma FailureKeepsView(s: PageState, owner: string, name: string, isoNow: string)
    requires !s.isLoading
    ensures var after := Settle(Begin(s), owner, name, Failed).state;
            ChangelogOutput.Render(after.isLoading, after.changelog, after.repoDetails, isoNow)
            == ChangelogOutput.Render(s.isLoading, s.changelog, s.repoDetails, isoNow)
  {
  }

  function Labels(entries: seq<ChangelogOutput.Entry>): seq<string> {
    seq(|entries|, i requires 0 <= i < |entries| => entries[i].typeLabel)
  }

  /** The card lists the mock items labelled by their upper-cased types. */
  lemma GeneratedLabels(owner: string, repo: string, token: Option<string>)
    ensures Labels(ChangelogOutput.RenderEntries(GenerateChangelog(owner, repo, token)))
         == ["FEATURE", "IMPROVEMENT", "BUGFIX", "FEATURE", "IMPROVEMENT"]
  {
    var items := GenerateChangelog(owner, repo, token);
    var entries := ChangelogOutput.RenderEntries(items);
    ChangelogOutput.KnownLabels();
    var types := ItemTypes(items);
    forall i | 0 <= i < 5
      ensures entries[i].typeLabel == Text.ToUpper(types[i])
    {
    }
  }

  /** From an accepted form to the rendered card: after a successful run of
      the mock generator the card is titled with the repository text exactly
      as typed and lists the five items labelled by their upper-cased types. */
  lemma SubmitThenRender(token: string, repoInput: string, prior: PageState, isoNow: string)
    requires GitHubForm.HandleSubmit(token, repoInput).Generate?
    ensures var p := GitHubForm.HandleSubmit(token, repoInput).payload;
            var items := GenerateChangelog(p.repoOwner, p.repoName, Some(p.token));
            var after := Settle(Begin(prior), p.repoOwner, p.repoName, Generated(items)).state;
            var v := ChangelogOutput.Render(after.isLoading, after.changelog, after.repoDetails, isoNow);
            v.Card? && v.title == repoInput + " - " + ChangelogOutput.FormatDate(isoNow)
            && Labels(v.entries) == ["FEATURE", "IMPROVEMENT", "BUGFIX", "FEATURE", "IMPROVEMENT"]
  {
    var p := GitHubForm.HandleSubmit(token, repoInput).payload;
    var items := GenerateChangelog(p.repoOwner, p.repoName, Some(p.token));
    var after := Settle(Begin(prior), p.repoOwner, p.repoName, Generated(items)).state;
    assert after == PageState(false, Some(items), Some(RepoRef(p.repoOwner, p.repoName)));
    var v := ChangelogOutput.Render(false, Some(items), Some(RepoRef(p.repoOwner, p.repoName)), isoNow);
    assert v == ChangelogOutput.Card(ChangelogOutput.Title(Some(RepoRef(p.repoOwner, p.repoName)), isoNow),
                                     ChangelogOutput.RenderEntries(items));
    TitleOfRepo(p.repoOwner, p.repoName, isoNow);
    GeneratedLabels(p.repoOwner, p.repoName, Some(p.token));
  }

  lemma TitleOfRepo(owner: string, name: string, isoNow: string)
    ensures ChangelogOutput.Title(Some(RepoRef(owner, name)), isoNow)
         == (owner + "/" + name) + " - " + ChangelogOutput.FormatDate(isoNow)
  {
  }

  /** The page component's state and the toasts it has raised. */
  class Page {
    var isLoading: bool
    var changelog: Option<seq<ChangelogItem>>
    var repoDetails: Option<RepoRef>
    var notices: seq<Notice>

    function State(): PageState
      reads this
    {
      PageState(isLoading, changelog, repoDetails)
    }

    constructor ()
      ensures State() == InitialPage && notices == []
    {
      isLoading := false;
      changelog := None;
      repoDetails := None;
      notices := [];
    }

    /** `handleGenerate` up to its `await`. */
    method StartGenerate()
      modifies this
      ensures State() == Begin(old(State())) && notices == old(notices)
    {
      isLoading := true;
    }

    /** The rest of `handleGenerate`, once the awaited call has settled. */
    method FinishGenerate(owner: string, name: string, outcome: GenerationOutcome)
      modifies this
      ensures State() == Settle(old(State()), owner, name, outcome).state
      ensures notices == old(notices) + [Settle(old(State()), owner, name, outcome).notice]
    {
      match outcome {
        case Generated(items) =>
          changelog := Some(items);
          repoDetails := Some(RepoRef(owner, name));
          notices := notices + [SuccessNotice(|items|, owner, name)];
        case Failed =>
          notices := notices + [FailureNotice];
      }
      isLoading := false;
    }

    /** `handleGenerate` as a whole, given how the generation call settles;
        `inFlight` is the state the page renders while it waits. */
    method HandleGenerate(request: GitHubForm.Payload, outcome: GenerationOutcome) returns (ghost inFlight: PageState)
      modifies this
      ensures inFlight == Begin(old(State()))
      ensures State() == Settle(inFlight, request.repoOwner, request.repoName, outcome).state
      ensures notices == old(notices) + [Settle(inFlight, request.repoOwner, request.repoName, outcome).notice]
    {
      StartGenerate();
      inFlight := State();
      FinishGenerate(request.repoOwner, request.repoName, outcome);
    }
  }
}
