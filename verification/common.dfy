/** Values shared by the components: the optional wrapper, the toast
    notification record, the parsed repository reference and the changelog
    item the generator produces. */
module Common {

  datatype Option<+T> = None | Some(value: T)

  /** A toast as the components raise it: a title, a description and whether
      it uses the destructive (error) variant. */
  datatype Notice = Notice(title: string, description: string, destructive: bool)

  /** The `{ owner, name }` pair the page keeps as `repoDetails`. */
  datatype RepoRef = RepoRef(owner: string, name: string)

  /** One changelog entry; `itemType` is the source's `type` field, which the
      output view treats as an arbitrary string. */
  datatype ChangelogItem = ChangelogItem(itemType: string, title: string, description: string)

  /** The three categories the generator and the tag mapping know. */
  const Feature: string := "feature"
  const Improvement: string := "improvement"
  const Bugfix: string := "bugfix"
}
