/** The changelog card: a loading placeholder, nothing, or one entry per
    changelog item under a title naming the repository and the date. */
module ChangelogOutput {
  import opened Common
  import Text
  import GitHubForm

  /** One rendered entry: the tag's CSS class, the upper-cased type label,
      the title and the description. */
  datatype Entry = Entry(tagClass: string, typeLabel: string, title: string, description: string)

  /** What the component returns: the skeleton card with its placeholder
      rows, `null`, or the card with a title and the entries. */
  datatype View = Placeholder(rows: nat) | Hidden | Card(title: string, entries: seq<Entry>)

  /** How many skeleton rows the loading card shows. */
  const PlaceholderRows: nat := 5

  /** `getTagClass`: the three known types get their own class, anything else
      falls back to the feature class. */
  function TagClass(itemType: string): (r: string)
    ensures r == "tag-feature" || r == "tag-improvement" || r == "tag-bugfix"
    ensures itemType == Feature || itemType == Improvement || itemType == Bugfix ==> r == "tag-" + itemType
    ensures itemType != Improvement && itemType != Bugfix ==> r == "tag-feature"
  {
    if itemType == Feature then "tag-feature"
    else if itemType == Improvement then "tag-improvement"
    else if itemType == Bugfix then "tag-bugfix"
    else "tag-feature"
  }

  /** `formatDate`, with the clock's ISO timestamp passed in: the part of
      `toISOString()` before the `T`. */
  function FormatDate(isoNow: string): (r: string)
    ensures |r| <= |isoNow| && r == isoNow[..|r|]
    ensures forall i :: 0 <= i < |r| ==> r[i] != 'T'
    ensures |r| < |isoNow| ==> isoNow[|r|] == 'T'
  {
    Text.BeforeFirst(isoNow, 'T')
  }

  /** The card title: `owner/name - date` when the repository is known,
      `Changelog` otherwise. */
  function Title(repoDetails: Option<RepoRef>, isoNow: string): (r: string)
    ensures repoDetails.None? ==> r == "Changelog"
    ensures repoDetails.Some? ==> |r| >= |" - " + FormatDate(isoNow)|
    ensures repoDetails.Some? ==> r[|r| - |" - " + FormatDate(isoNow)|..] == " - " + FormatDate(isoNow)
    ensures repoDetails.Some? && repoDetails.value.owner != [] && repoDetails.value.name != []
            && GitHubForm.NoSlash(repoDetails.value.owner) && GitHubForm.NoSlash(repoDetails.value.name)
            ==> GitHubForm.ParseRepo(r[..|r| - |" - " + FormatDate(isoNow)|]) == repoDetails
  {
    match repoDetails
    case Some(repo) =>
      var head := repo.owner + "/" + repo.name;
      var tail := " - " + FormatDate(isoNow);
      var r := head + tail;
      assert r[..|r| - |tail|] == head && r[|r| - |tail|..] == tail;
      if repo.owner != [] && repo.name != [] && GitHubForm.NoSlash(repo.owner) && GitHubForm.NoSlash(repo.name) then
        GitHubForm.ParseRepoOfJoin(repo.owner, repo.name);
        r
      else r
    case None => "Changelog"
  }

  /** The body of the `changelog.map` callback. */
  function RenderItem(item: ChangelogItem): (r: Entry)
    ensures r.tagClass == "tag-feature" || r.tagClass == "tag-improvement" || r.tagClass == "tag-bugfix"
    ensures item.itemType == Feature || item.itemType == Improvement || item.itemType == Bugfix
            ==> r.tagClass == "tag-" + item.itemType
    ensures item.itemType != Improvement && item.itemType != Bugfix ==> r.tagClass == "tag-feature"
    ensures |r.typeLabel| == |item.itemType|
    ensures forall i :: 0 <= i < |r.typeLabel| ==> !('a' <= r.typeLabel[i] <= 'z')
    ensures forall i :: 0 <= i < |item.itemType| && 'a' <= item.itemType[i] <= 'z'
              ==> r.typeLabel[i] as int == item.itemType[i] as int - 32
    ensures forall i :: 0 <= i < |item.itemType| && !('a' <= item.itemType[i] <= 'z')
              ==> r.typeLabel[i] == item.itemType[i]
    ensures r.title == item.title && r.description == item.description
  {
    Entry(TagClass(item.itemType), Text.ToUpper(item.itemType), item.title, item.description)
  }

  /** `changelog.map(...)`: one entry per item, in the same order. */
  function RenderEntries(items: seq<ChangelogItem>): (r: seq<Entry>)
    ensures |r| == |items|
    ensures forall i :: 0 <= i < |items| ==> r[i] == RenderItem(items[i])
  {
    if items == [] then [] else [RenderItem(items[0])] + RenderEntries(items[1..])
  }

  /** The component: loading wins over everything, then a missing or empty
      changelog renders nothing, and otherwise the card lists every item. */
  function Render(isLoading: bool, changelog: Option<seq<ChangelogItem>>, repoDetails: Option<RepoRef>,
                  isoNow: string): (v: View)
    ensures isLoading ==> v == Placeholder(PlaceholderRows)
    ensures !isLoading ==> (v.Hidden? <==> changelog.None? || changelog.value == [])
    ensures !isLoading && changelog.Some? && changelog.value != [] ==> v.Card?
    ensures v.Card? ==> !isLoading && changelog.Some? && v.title == Title(repoDetails, isoNow)
    ensures v.Card? ==> |v.entries| == |changelog.value|
    ensures v.Card? ==> forall i :: 0 <= i < |v.entries| ==> v.entries[i] == RenderItem(changelog.value[i])
  {
    if isLoading then Placeholder(PlaceholderRows)
    else if changelog.None? || changelog.value == [] then Hidden
    else Card(Title(repoDetails, isoNow), RenderEntries(changelog.value))
  }

  /** A title built from a parsed repository field shows exactly what the user
      typed, followed by the date. */
  lemma TitleShowsRepoInput(repoInput: string, isoNow: string)
    requires GitHubForm.ParseRepo(repoInput).Some?
    ensures Title(GitHubForm.ParseRepo(repoInput), isoNow) == repoInput + " - " + FormatDate(isoNow)
  {
    var repo := GitHubForm.ParseRepo(repoInput).value;
    assert repo.owner + "/" + repo.name + " - " + FormatDate(isoNow)
        == (repo.owner + "/" + repo.name) + " - " + FormatDate(isoNow);
  }

  /** The label of each of the three known types is its upper-case name. */
  lemma KnownLabels()
    ensures Text.ToUpper(Feature) == "FEATURE"
    ensures Text.ToUpper(Improvement) == "IMPROVEMENT"
    ensures Text.ToUpper(Bugfix) == "BUGFIX"
  {
  }
}
