# DevChangelog front end: the logic behind the views

This project models the parts of the DevChangelog changelog-generator page that hold logic:

- **Repository form** (`GitHubForm`). The submit handler checks the access token first and the `owner/repo` text second. When both pass, it forwards them. The form's fields are overwritten by their change handlers. The submit button is disabled while the page is loading.
- **Markdown editor** (`MarkdownEditor`). A card with a view mode and an edit mode, changed by the header Edit/Save button, the textarea, Save Changes and Cancel. The `onSave` callback is modelled as a log of the texts it receives.
- **Page controller** (`IndexPage`). It holds the mock `generateChangelog`, which returns a fixed five-item list. It also holds `handleGenerate`, which sets the loading flag, replaces the changelog and the repository details on success, keeps them on failure, and always clears the flag. Toasts are recorded as `Notice` values: a title, a description and a destructive flag.
- **Changelog card** (`ChangelogOutput`). It holds the type-to-CSS-class mapping and the choice between the loading placeholder, nothing and the item list. It also builds the `owner/name - date` title and the upper-cased type label of each entry.

Modules: `Common` (shared values), `Text` (the JavaScript string built-ins used: `trim`, `toUpperCase`, `split(sep)[0]`, and decimal rendering of a count), `GitHubForm`, `MarkdownEditor`, `ChangelogOutput` and `IndexPage`.

Where the components change state, they are modelled as classes: `GitHubForm.Form`, `MarkdownEditor.Editor` and `IndexPage.Page`. The field setters (`Form.SetToken`, `Form.SetRepoInput`) and `Editor.Save` state their new fields directly. The editor's click and change handlers and the page's generation steps state their new state through a pure transition function (`MarkdownEditor.Step`, `IndexPage.Begin`/`Settle`), and `Form.Submit` runs the pure `HandleSubmit`. The lemmas are proved about those functions.

Cancel only leaves edit mode (`src/components/MarkdownEditor.tsx:57`), so the edited buffer is kept and is shown again at the next Edit (`MarkdownEditor.EditTypeCancel`).

The clock is injected: `ChangelogOutput.FormatDate` takes the ISO timestamp as a parameter and keeps the part before `T`. The awaited generation call is also injected: `IndexPage.Page.HandleGenerate` takes how the call settles (`Generated(items)` or `Failed`) as a parameter. Its ghost result is the state the page renders while it waits.

## Model

| member | source | states |
|---|---|---|
| `Text.BlankIffAllWhitespace` | src/components/GitHubForm.tsx:22 | `!token.trim()` holds exactly when every character of the token is ECMAScript whitespace or a line terminator |
| `Text.Trim` | src/components/GitHubForm.tsx:22 | the trimmed token is a contiguous slice of the input with only whitespace before and after it, and it neither starts nor ends with whitespace |
| `Text.ToUpper` | src/components/ChangelogOutput.tsx:88 | the label has the type's length and no lower-case ASCII letter; lower-case letters move to upper case and every other character is kept |
| `Text.BeforeFirst` | src/components/ChangelogOutput.tsx:24 | `split('T')[0]` is a prefix of the timestamp without `T`, ending where the first `T` is |
| `Text.DecimalString` | src/pages/Index.tsx:65 | the count in the success toast is non-empty decimal digits with no leading zero, which read back as the number |
| `GitHubForm.ParseRepo` | src/components/GitHubForm.tsx:32-42 | an accepted repository text splits into a non-empty, slash-free owner and name that rejoin with `/` to exactly the input |
| `GitHubForm.ParseRepoMatchesPattern` | src/components/GitHubForm.tsx:32-33 | the parser accepts exactly the language of `^([^/]+)\/([^/]+)$` (both directions) |
| `GitHubForm.PatternIffOneInnerSlash` | src/components/GitHubForm.tsx:32 | the pattern matches exactly when the text has one `/` and it is neither first nor last |
| `GitHubForm.ParseRepoOfJoin` | src/components/GitHubForm.tsx:32-42 | `owner + "/" + name` with non-empty slash-free parts parses back to the same pair, untrimmed and not re-cased |
| `GitHubForm.HandleSubmit` | src/components/GitHubForm.tsx:18-44 | a blank token is rejected with the missing-token toast whatever the repo text is; otherwise a text outside the pattern is rejected with the format toast; `onGenerate` is called exactly when both checks pass, with the token as typed and the owner and name that rejoin to the input |
| `GitHubForm.SubmitForwardsVerbatim` | src/components/GitHubForm.tsx:22-43 | any non-blank token with a valid `owner/name` reaches `onGenerate` untrimmed, with owner and name verbatim |
| `GitHubForm.Form.constructor` | src/components/GitHubForm.tsx:15-16 | both fields start empty |
| `GitHubForm.Form.SetToken` | src/components/GitHubForm.tsx:63 | the token field becomes the typed value; the repository field is unchanged |
| `GitHubForm.Form.SetRepoInput` | src/components/GitHubForm.tsx:78 | the repository field becomes the typed value; the token is unchanged |
| `GitHubForm.Form.Submit` | src/components/GitHubForm.tsx:87-91 | the form submits nothing exactly when the button is disabled by `isLoading`; otherwise it runs the submit handler on the current fields |
| `MarkdownEditor.Step` | src/components/MarkdownEditor.tsx:17-60 | `onSave` is called exactly by Save Changes and by the header button in edit mode, always with the current buffer; on the controls the card renders, every save is made in edit mode and ends it; only a change rewrites the buffer, verbatim; edit mode is entered only by the header button in view mode |
| `MarkdownEditor.HeaderClickSavesWhenEditing` | src/components/MarkdownEditor.tsx:30-60 | in edit mode the header button and Save Changes make the same transition |
| `MarkdownEditor.BufferIsLastChange` | src/components/MarkdownEditor.tsx:43 | after any sequence of actions the buffer holds the last typed value, or the initial text if nothing was typed |
| `MarkdownEditor.SavesAreTypedText` | src/components/MarkdownEditor.tsx:17-20 | every text `onSave` receives is the initial text or a value the user typed, unchanged |
| `MarkdownEditor.NoSaveWithoutSaveAction` | src/components/MarkdownEditor.tsx:17-57 | a session with no Save Changes and no header click never calls `onSave` |
| `MarkdownEditor.EditTypeSave` | src/components/MarkdownEditor.tsx:17-43 | Edit, type `t`, Save: `onSave` gets exactly `t` once and the card is back in view mode showing `t` |
| `MarkdownEditor.EditTypeCancel` | src/components/MarkdownEditor.tsx:30-57 | Edit, type `t`, Cancel, Edit: `onSave` is never called and the buffer still holds `t`, so the edit is not reverted |
| `MarkdownEditor.SavesNeedEditMode` | src/components/MarkdownEditor.tsx:30-65 | in any session on rendered controls, saves never outnumber header clicks (plus one if the session began in edit mode), because each save needs edit mode and ends it |
| `MarkdownEditor.RunSnoc` | src/components/MarkdownEditor.tsx:17-60 | running one more action after a session continues from the session's final state and appends that action's save |
| `MarkdownEditor.Editor.constructor` | src/components/MarkdownEditor.tsx:14-15 | the editor starts in view mode with the initial text and no saves |
| `MarkdownEditor.Editor.Save` | src/components/MarkdownEditor.tsx:17-20 | from edit mode, `onSave` receives the current buffer, then edit mode ends with the buffer kept |
| `MarkdownEditor.Editor.ClickHeader` | src/components/MarkdownEditor.tsx:30 | the header button makes the `Step` transition: save in edit mode, enter edit mode otherwise |
| `MarkdownEditor.Editor.ChangeText` | src/components/MarkdownEditor.tsx:43 | in edit mode, where the textarea exists, the buffer becomes the typed value; the mode and the saves are unchanged |
| `MarkdownEditor.Editor.ClickSaveChanges` | src/components/MarkdownEditor.tsx:60 | Save Changes, shown only in edit mode, makes the save transition |
| `MarkdownEditor.Editor.ClickCancel` | src/components/MarkdownEditor.tsx:57 | Cancel, shown only in edit mode, leaves edit mode, keeps the buffer and does not call `onSave` |
| `ChangelogOutput.TagClass` | src/components/ChangelogOutput.tsx:62-73 | the mapping is total and yields one of three classes; `tag-<type>` for the three known types, `tag-feature` for anything else |
| `ChangelogOutput.FormatDate` | src/components/ChangelogOutput.tsx:22-25 | the date is the part of the injected ISO timestamp before its first `T` (all of it if there is none) |
| `ChangelogOutput.RenderItem` | src/components/ChangelogOutput.tsx:84-94 | an entry's class is one of the three tag classes: `tag-<type>` for a known type and `tag-feature` for any other; its label is the upper-cased type, character by character (a lower-case ASCII letter becomes its capital, every other character is kept); the title and description are the item's |
| `ChangelogOutput.RenderEntries` | src/components/ChangelogOutput.tsx:84 | one entry per item, in input order |
| `ChangelogOutput.Render` | src/components/ChangelogOutput.tsx:36-94 | loading shows exactly 5 placeholder rows whatever the changelog is; otherwise a missing or empty changelog renders nothing, and a non-empty one renders a card with the title and one rendered entry per item, in order |
| `ChangelogOutput.Title` | src/components/ChangelogOutput.tsx:80 | without repository details the title is `Changelog`; with them it ends with ` - ` and the date, and for a valid owner and name the part before that parses back to the same details |
| `ChangelogOutput.TitleShowsRepoInput` | src/components/ChangelogOutput.tsx:80 | the title for details parsed from the form's text is that text, exactly, then ` - ` and the date |
| `ChangelogOutput.KnownLabels` | src/components/ChangelogOutput.tsx:88 | the three known types are labelled `FEATURE`, `IMPROVEMENT` and `BUGFIX` |
| `IndexPage.GenerateChangelog` | src/pages/Index.tsx:10-45 | the mock list has five items whose types are feature, improvement, bugfix, feature, improvement |
| `IndexPage.GenerateIgnoresInputs` | src/pages/Index.tsx:10-45 | the owner, name and token do not affect the list |
| `IndexPage.GeneratedCategoryCounts` | src/pages/Index.tsx:18-44 | the mock list has 2 features, 2 improvements and 1 bug fix |
| `IndexPage.GeneratedLabels` | src/pages/Index.tsx:18-44 | the card labels the mock items FEATURE, IMPROVEMENT, BUGFIX, FEATURE, IMPROVEMENT |
| `IndexPage.Begin` | src/pages/Index.tsx:53 | before the await only the loading flag changes, to true |
| `IndexPage.Settle` | src/pages/Index.tsx:58-77 | loading is cleared after every outcome; success replaces the changelog and `{owner, name}` together and raises a non-destructive toast; failure keeps both and raises a destructive toast |
| `IndexPage.SuccessNotice` | src/pages/Index.tsx:63-66 | the success toast is the default variant; the number written after "Generated " reads back as the count, and the description ends with `owner/name` |
| `IndexPage.InFlightShowsPlaceholder` | src/pages/Index.tsx:53-58 | while generation is pending the card shows the 5-row placeholder, whatever changelog the page holds |
| `IndexPage.FailureKeepsView` | src/pages/Index.tsx:67-77 | after a failed generation the card renders exactly as it did before |
| `IndexPage.SubmitThenRender` | src/pages/Index.tsx:52-66 | for an accepted form, a successful mock run gives a card titled with the typed repository text and the date, listing the five labelled items |
| `IndexPage.Page.constructor` | src/pages/Index.tsx:48-50 | the page starts not loading, with no changelog, no repository details and no toasts |
| `IndexPage.Page.StartGenerate` | src/pages/Index.tsx:53 | the page makes the `Begin` transition and raises no toast |
| `IndexPage.Page.FinishGenerate` | src/pages/Index.tsx:58-77 | the page makes the `Settle` transition and records its toast |
| `IndexPage.Page.HandleGenerate` | src/pages/Index.tsx:52-78 | the page is loading with its old results while the call is pending, then makes the `Settle` transition for the given outcome and records one toast |

## Left out

- All JSX, CSS other than the tag classes, icons, and the card and skeleton layout are presentation only. The dashboard, the sidebar and the app header are static markup with no logic.
- The 2-second `setTimeout` and the `async`/`await` machinery are not modelled. Generation is two sequential steps, and how the awaited call settles is a parameter.
- `console.log` and `console.error` are left out, including the stub's token-presence log line. Toasts are recorded only as `Notice` values.
- `new Date().toISOString()` is not modelled: the timestamp is a parameter of `FormatDate`.
- `handlePublish` only raises a toast and is not modelled.
- `Text.ToUpper`: upper-cases only the ASCII letters `a`–`z`, not the full Unicode case mapping of `toUpperCase`. The item types the page produces are ASCII.
- React re-rendering is not modelled, for example a new `initialMarkdown` prop after the editor has mounted. Only the handlers' transitions are modelled.
