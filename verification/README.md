# Portfolio front end: a Dafny model of its logic

The portfolio site is a React application made of public pages (an archive of
projects, lab notes) and a small admin panel. There, an administrator logs in
and edits projects, lab notes and categories. Most of the code renders markup
or calls a REST API. Below that sit small pieces of logic, and this project
models and verifies them:

- **The admin editors** (projects, notes, categories):
  - the slug transform that derives a slug or a category name from a title or label;
  - the "auto / manual" flag that decides whether editing the title rewrites the slug;
  - the comma-separated tag parser and the read-time estimate;
  - seeding the form from a loaded record, and the submit transitions.
- **List derivations:**
  - the category list sorted by `order`;
  - the project filter by category;
  - the tag row of the notes page, with its `All` button and highlight;
  - the pluralised footer counts.
- **The HTTP layer:**
  - how the API client classifies a response (error envelope, 204, JSON);
  - how it builds the query string;
  - the body rule of `post`/`put`/`patch`.
- **The admin services:**
  - the `authFetch` of the lab-notes service (401, other errors, 204);
  - the session service (token extraction, storage, expiry, bearer header).
- **The hooks:** the loading / success / error state of the data hooks, the
  authentication hook and the contact-form hook. The contact hook also maps
  the server's field errors into a dictionary.
- **UI state:**
  - the cursor trail, a queue of at most five points with its SVG path;
  - the typewriter text, which hands a character budget to a list of segments;
  - the visible-index set of the scroll-reveal hooks.

The modelling conventions are these:

- Pure code is a function, with lemmas about it.
- A React component or hook that keeps state is a `class`. Its fields are the `useState` values.
- An asynchronous handler is split in two. `Start…` is the part before the `await`. `Finish…` takes the awaited outcome, as a `Result<_, Thrown>`.
- Loops in the source are methods with loop invariants, proved against a specification function.
- `fetch`, the clock, `confirm`, the JWT decoding and the DOM are parameters.

Integers stand for JavaScript numbers, and the JSON values a response can carry are
the datatype `JsValues.JsValue`. `Thrown` is every value a `throw` or a rejected
promise can carry: an `Error`, a `TypeError`, a `SyntaxError`, the client's
`ApiRequestError`, or a value that is not an error.

In the slug transform, `trim()` runs after every white-space run has become
`-`, so outer hyphens stay: `" My Title "` gives `"-my-title-"`
(`Slug.SlugKeepsOuterHyphens`).

## Model

| member | source | states |
|---|---|---|
| Slug.SlugifyIsSlug | src/pages/admin/ProjectEditor.tsx:7-14 | the slug holds only `a-z`, `0-9` and `-`, and never two hyphens in a row |
| Slug.CollapsedHasNoDoubleHyphen | src/pages/admin/ProjectEditor.tsx:12 | collapsing hyphen runs leaves no two adjacent hyphens |
| Slug.RemoveDisallowedAlphabet | src/pages/admin/ProjectEditor.tsx:10 | after removing the disallowed class only `[a-z0-9\s-]` is left, each character taken from the input |
| Slug.CollapseRunsAlphabet | src/pages/admin/ProjectEditor.tsx:11-12 | replacing the runs of a class leaves no character of the class; each character is `-` or copied from the input |
| Slug.TrimIsNoOp | src/pages/admin/ProjectEditor.tsx:13 | the final `trim()` never changes the string, because no white space is left by then |
| Slug.SlugifyOfSlug | src/pages/admin/ProjectEditor.tsx:7-14 | a string that is already a slug is left unchanged |
| Slug.SlugifyIdempotent | src/pages/admin/ProjectEditor.tsx:7-14 | applying the transform twice gives the same as once |
| Slug.SlugifyKeepsLettersAndDigits | src/pages/admin/ProjectEditor.tsx:7-14 | every letter and digit of the lowercased title survives in order; only separators change |
| Slug.CollapseRunsAppend | src/pages/admin/ProjectEditor.tsx:11-12 | run replacement reads left to right, so the input can be split at any point |
| Slug.SlugOfMyCoolProject | src/pages/admin/ProjectEditor.tsx:7-14 | `"My Cool Project!"` gives `"my-cool-project"` |
| Slug.SlugKeepsOuterHyphens | src/pages/admin/ProjectEditor.tsx:11-13 | `" My Title "` gives `"-my-title-"`: outer white space becomes hyphens that are not trimmed |
| Tags.ParsedTagsAreClean | src/pages/admin/ProjectEditor.tsx:85-92 | every parsed tag is non-empty, has no surrounding white space and no comma |
| Tags.ParseTagsAtComma | src/pages/admin/ProjectEditor.tsx:87-90 | the text on either side of a comma is parsed separately and the tags keep their order |
| Tags.ParseTagsOfBlank | src/pages/admin/ProjectEditor.tsx:87-90 | text made only of white space gives no tags |
| Tags.ParseTagsOfClean | src/pages/admin/ProjectEditor.tsx:87-90 | a clean tag on its own parses to exactly that tag |
| Tags.ParseJoinedTags | src/pages/admin/ProjectEditor.tsx:65 | clean tags joined with `", "` (the seeded text box) parse back to the same tags |
| ReadTime.WordCount | src/pages/admin/NoteEditor.tsx:19 | the word count is at least 1, even for empty content |
| ReadTime.ReadMinutes | src/pages/admin/NoteEditor.tsx:20 | the minutes are the least count whose 200-word budget covers the words |
| ReadTime.AtLeastOneMinute | src/pages/admin/NoteEditor.tsx:17-22 | no content reads in less than one minute |
| ReadTime.MinutesPerHundredsOfWords | src/pages/admin/NoteEditor.tsx:18-20 | 200 more words add exactly one minute |
| ReadTime.MinutesAreMonotone | src/pages/admin/NoteEditor.tsx:20 | more words never mean fewer minutes |
| ReadTime.BlankContentReadsOneMinute | src/pages/admin/NoteEditor.tsx:19-21 | empty or white-space-only content gives `"1 min read"` |
| ReadTime.WordCountOfWords | src/pages/admin/NoteEditor.tsx:19 | n words separated by single spaces count as n |
| EditorForms.SaveCall | src/pages/admin/NoteEditor.tsx:95-99 | a submit updates the record when the route id is non-empty and creates one otherwise |
| ProjectEditor.InitialForm | src/pages/admin/ProjectEditor.tsx:21-35 | a new project form: empty texts, category `engineering`, the current year, order 0, unpublished, not featured |
| ProjectEditor.SeedForm | src/pages/admin/ProjectEditor.tsx:50-64 | a loaded project fills the form; absent link, github, metrics and formula become `''`, an absent `published` becomes false |
| ProjectEditor.ProjectEditorPage.constructor | src/pages/admin/ProjectEditor.tsx:17-40 | the initial page state, with the slug in automatic mode |
| ProjectEditor.ProjectEditorPage.StartLoad | src/pages/admin/ProjectEditor.tsx:43-47 | only an editing page with an id starts loading that id |
| ProjectEditor.ProjectEditorPage.FinishLoad | src/pages/admin/ProjectEditor.tsx:48-73 | success seeds the form and the tag text and switches the slug to manual; failure sets `'Failed to load project'`; loading ends either way |
| ProjectEditor.ProjectEditorPage.ChangeTitle | src/pages/admin/ProjectEditor.tsx:77-83 | the title always changes; the slug becomes the title's slug only in automatic mode, otherwise it stays; no other field changes |
| ProjectEditor.ProjectEditorPage.EditSlug | src/pages/admin/ProjectEditor.tsx:218-221 | a manual slug edit switches to manual mode and changes only the slug |
| ProjectEditor.ProjectEditorPage.ToggleAutoSlug | src/pages/admin/ProjectEditor.tsx:209 | the auto/manual button flips the mode |
| ProjectEditor.ProjectEditorPage.ChangeTags | src/pages/admin/ProjectEditor.tsx:85-92 | the raw text is kept and the form holds the parsed, clean tags; nothing else changes |
| ProjectEditor.ProjectEditorPage.ChangeOrder | src/pages/admin/ProjectEditor.tsx:284-286 | the order becomes `parseInt(value) \|\| 0` |
| ProjectEditor.ProjectEditorPage.StartSubmit | src/pages/admin/ProjectEditor.tsx:94-104 | the error is cleared, saving starts, and the call is update or create by the route id |
| ProjectEditor.ProjectEditorPage.FinishSubmit | src/pages/admin/ProjectEditor.tsx:105-110 | success navigates to `/admin/projects`; failure sets the message or `'Failed to save project'`; saving ends either way |
| ProjectEditor.SeededTagTextParsesBack | src/pages/admin/ProjectEditor.tsx:65 | the tag text a loaded project seeds parses back to its tags when they are clean |
| NoteEditor.InitialForm | src/pages/admin/NoteEditor.tsx:29-38 | a new note form: empty texts, `'1 min read'`, today's date, unpublished |
| NoteEditor.SeedForm | src/pages/admin/NoteEditor.tsx:49-58 | every field of the loaded note is copied into the form |
| NoteEditor.InitialReadTimeIsEstimate | src/pages/admin/NoteEditor.tsx:33-35 | the initial read time equals the estimate of the initial empty content |
| NoteEditor.NoteEditorPage.constructor | src/pages/admin/NoteEditor.tsx:25-45 | the initial page state; the note hook is created for `id \|\| ''` |
| NoteEditor.NoteEditorPage.Seed | src/pages/admin/NoteEditor.tsx:47-62 | only a loaded note on an editing page fills the form and tag text and switches the slug to manual; otherwise nothing changes |
| NoteEditor.NoteEditorPage.ChangeTitle | src/pages/admin/NoteEditor.tsx:64-70 | the title always changes; the slug follows it only in automatic mode; no other field changes |
| NoteEditor.NoteEditorPage.ChangeContent | src/pages/admin/NoteEditor.tsx:72-78 | the content and its read-time estimate change; nothing else does |
| NoteEditor.NoteEditorPage.EditSlug | src/pages/admin/NoteEditor.tsx:212-215 | a manual slug edit switches to manual mode and changes only the slug |
| NoteEditor.NoteEditorPage.ToggleAutoSlug | src/pages/admin/NoteEditor.tsx:203 | the auto/manual button flips the mode |
| NoteEditor.NoteEditorPage.ChangeTags | src/pages/admin/NoteEditor.tsx:80-87 | the raw text is kept and the form holds the parsed, clean tags |
| NoteEditor.NoteEditorPage.StartSubmit | src/pages/admin/NoteEditor.tsx:89-99 | the error is cleared, saving starts, and the call is update or create by the route id |
| NoteEditor.NoteEditorPage.FinishSubmit | src/pages/admin/NoteEditor.tsx:100-105 | success navigates to `/admin/notes`; failure sets the message or `'Failed to save note'`; saving ends either way |
| NoteEditor.NewNoteHasNoSpinner | src/pages/admin/NoteEditor.tsx:108 | a new note never shows the spinner, although the note hook for `''` stays loading |
| CategoryEditor.SeedForm | src/pages/admin/CategoryEditor.tsx:40-45 | the category fills the form, with an absent description as `''` |
| CategoryEditor.CategoryEditorPage.constructor | src/pages/admin/CategoryEditor.tsx:18-34 | empty form, not saving, no error, name in automatic mode |
| CategoryEditor.CategoryEditorPage.Seed | src/pages/admin/CategoryEditor.tsx:37-51 | while editing, a state category whose id equals the route id seeds the form and switches to manual; any other sets the not-found message and leaves the form; not editing changes nothing |
| CategoryEditor.CategoryEditorPage.ChangeLabel | src/pages/admin/CategoryEditor.tsx:53-59 | the label always changes; the name follows it only in automatic mode and is then a slug |
| CategoryEditor.CategoryEditorPage.EditName | src/pages/admin/CategoryEditor.tsx:164-167 | a manual name edit switches to manual mode and changes only the name |
| CategoryEditor.CategoryEditorPage.ToggleAutoName | src/pages/admin/CategoryEditor.tsx:155 | the auto/manual button flips the mode |
| CategoryEditor.CategoryEditorPage.ChangeOrder | src/pages/admin/CategoryEditor.tsx:190-191 | the order becomes `parseInt(value) \|\| 0` |
| Text.NonNumericParsesToZero | src/pages/admin/CategoryEditor.tsx:191 | input without a digit gives order 0 |
| Text.ParseIntOfDecimal | src/pages/admin/CategoryEditor.tsx:191 | the decimal text of an integer parses back to that integer |
| CategoryEditor.CategoryEditorPage.StartSubmit | src/pages/admin/CategoryEditor.tsx:61-71 | the error is cleared, saving starts, and the call is update or create by the route id |
| CategoryEditor.CategoryEditorPage.FinishSubmit | src/pages/admin/CategoryEditor.tsx:72-77 | success navigates to `/admin/categories`; failure sets the message or `'Failed to save category'` |
| CategoriesList.SortedListIsSorted | src/pages/admin/CategoriesList.tsx:20 | the displayed list is non-decreasing by `order` |
| CategoriesList.SortedListIsPermutation | src/pages/admin/CategoriesList.tsx:20 | the displayed list holds the response's categories, each as often |
| CategoriesList.SortIsStable | src/pages/admin/CategoriesList.tsx:20 | categories with equal `order` keep their response order |
| CategoriesList.InsertKeepsSorted | src/pages/admin/CategoriesList.tsx:20 | inserting into a sorted list keeps it sorted |
| CategoriesList.WithOrderOfInsert | src/pages/admin/CategoriesList.tsx:20 | an inserted category goes before the categories of equal order |
| CategoriesList.CategoriesListPage.constructor | src/pages/admin/CategoriesList.tsx:9-12 | no categories, loading, no error, nothing being deleted |
| CategoriesList.CategoriesListPage.StartFetch | src/pages/admin/CategoriesList.tsx:15-16 | loading, error cleared |
| CategoriesList.CategoriesListPage.FinishFetch | src/pages/admin/CategoriesList.tsx:17-26 | success shows a sorted permutation of a copy of the response; failure keeps the list and sets `'Failed to load categories'`; loading ends |
| CategoriesList.CategoriesListPage.StartDelete | src/pages/admin/CategoriesList.tsx:33-36 | a declined confirm makes no call and changes nothing; otherwise the id is being deleted |
| CategoriesList.CategoriesListPage.FinishDelete | src/pages/admin/CategoriesList.tsx:37-44 | success refetches; failure alerts the message or `'Failed to delete category'`; nothing is being deleted afterwards |
| ArchivePage.Categories | src/pages/ArchivePage.tsx:9-25 | the API categories when there are any, otherwise the three fallbacks all / engineering / ml |
| ArchivePage.OfCategory | src/pages/ArchivePage.tsx:31 | the filtered list is no longer than the list and holds only projects of the category |
| ArchivePage.FilterByCategory | src/pages/ArchivePage.tsx:27-32 | `'all'` returns the list unchanged; any other id returns the projects of that category |
| ArchivePage.OfCategoryAppend | src/pages/ArchivePage.tsx:31 | filtering distributes over concatenation, so relative order is kept |
| ArchivePage.OfCategoryMembers | src/pages/ArchivePage.tsx:31 | an element is in the result exactly when it is in the list and of the category |
| ArchivePage.OfCategoryExtremes | src/pages/ArchivePage.tsx:31 | nothing is dropped exactly when all match; nothing is kept exactly when none does |
| ArchivePage.OfCategoryPartition | src/pages/ArchivePage.tsx:31 | two different categories covering every element split the list: lengths add up, each element is in exactly one |
| ArchivePage.NoProjectsMessage | src/pages/ArchivePage.tsx:102 | the empty-state message shows exactly when no project is of the active category |
| ArchivePage.FilteredProjectsMembers | src/pages/ArchivePage.tsx:27-32 | the page's filter keeps exactly the projects whose `category` is the active id |
| ArchivePage.PluralSuffix | src/pages/ArchivePage.tsx:114 | `s` exactly when the count is not 1 |
| ArchivePage.FooterPlural | src/pages/ArchivePage.tsx:114-115 | the footer says "projects" exactly when the count is not 1, and ends with `All Categories` for `'all'`, else the id |
| ArchivePage.FooterOfOne | src/pages/ArchivePage.tsx:114-115 | one project under `'all'` reads `1 project / All Categories` |
| ArchivePage.ArchivePageView.constructor | src/pages/ArchivePage.tsx:16 | the initial category is `'all'` |
| ArchivePage.ArchivePageView.Select | src/pages/ArchivePage.tsx:62 | a button click makes its id active |
| Archive.ShownMembers | src/components/sections/Archive.tsx:10-13 | `'all'` shows every static project in order; any other id shows exactly the projects of that category |
| Archive.EveryProjectHasAKnownCategory | src/data/projects.ts:3-111 | every static project is `engineering` or `ml` |
| Archive.CategoriesPartitionProjects | src/components/sections/Archive.tsx:10-13 | the two category filters partition the static list: lengths add up to the whole, every project is in exactly one |
| Archive.NoEmptyCategory | src/components/sections/Archive.tsx:58 | no category button leads to the empty-state message |
| Archive.CategoryCounts | src/components/sections/Archive.tsx:68-69 | the footer counts 10 projects for `'all'`, 6 engineering and 4 ML |
| NotesPage.AllTags | src/pages/NotesPage.tsx:13-15 | the row is the `All` entry with count 0 followed by the API tags in order, one longer |
| NotesPage.AllShowsNoCount | src/pages/NotesPage.tsx:58 | the `All` button never shows a count |
| NotesPage.ExactlyOneHighlighted | src/pages/NotesPage.tsx:51 | with distinct non-empty names other than `All` and a listed active tag, exactly one button is highlighted |
| NotesPage.NotesPageView.constructor | src/pages/NotesPage.tsx:9 | no tag is active at first |
| NotesPage.NotesPageView.Click | src/pages/NotesPage.tsx:46 | clicking `All` clears the tag; any other button makes its name active |
| NotesPage.ClickedButtonIsHighlighted | src/pages/NotesPage.tsx:46-51 | the button just clicked is highlighted and no other non-empty name is |
| NotesPage.TagChangeRefetches | src/pages/NotesPage.tsx:10 | the notes are fetched again exactly when the active tag changes |
| NotesPage.FooterShape | src/pages/NotesPage.tsx:147-148 | the footer says "notes" exactly when the count is not 1, and ends with ` / <tag>` only while a tag is active |
| StreamingText.StreamingTextView.constructor | src/components/ui/StreamingText.tsx:20-21 | nothing shown, not started |
| StreamingText.StreamingTextView.StartFires | src/components/ui/StreamingText.tsx:24-32 | the delayed start happens only while `trigger` holds |
| StreamingText.StreamingTextView.Tick | src/components/ui/StreamingText.tsx:34-46 | after the start, one more character per tick while text remains, then `onComplete`; the count never passes the text length |
| StreamingText.StreamingTextView.Shown | src/components/ui/StreamingText.tsx:50 | the shown text is the prefix of the text as long as the counter |
| StreamingText.TotalLength | src/components/ui/StreamingText.tsx:76 | the total length is the length of the concatenated segment texts |
| StreamingText.Render | src/components/ui/StreamingText.tsx:109-129 | no more spans than segments, and none at all for index 0 |
| StreamingText.RenderShape | src/components/ui/StreamingText.tsx:113-125 | each span keeps its segment's highlight and shows a prefix of its text; all but the last span show the whole segment |
| StreamingText.RenderIsPrefix | src/components/ui/StreamingText.tsx:109-129 | the spans spell the first `min(index, total)` characters of the concatenated segments |
| StreamingText.StreamingRichTextView.constructor | src/components/ui/StreamingText.tsx:73-75 | index 0, not started, not complete |
| StreamingText.StreamingRichTextView.TriggerChanged | src/components/ui/StreamingText.tsx:78-91 | `trigger = false` resets the index and both flags; `true` changes nothing until the start fires |
| StreamingText.StreamingRichTextView.StartFires | src/components/ui/StreamingText.tsx:86-88 | the delayed start sets the started flag |
| StreamingText.StreamingRichTextView.Tick | src/components/ui/StreamingText.tsx:93-106 | one more character while some remain; `onComplete` is called exactly when the end is reached and completion was not yet recorded, so once per trigger cycle |
| StreamingText.StreamingRichTextView.RenderSegments | src/components/ui/StreamingText.tsx:109-129 | the loop produces exactly the spans `Render` describes |
| CursorFollower.CursorFollowerView.constructor | src/components/ui/CursorFollower.tsx:9-12 | position origin, empty trail, not hovering, invisible |
| CursorFollower.CursorFollowerView.Move | src/components/ui/CursorFollower.tsx:15-22 | the trail grows by one up to five points; the new point is last, preceded by the newest earlier points in order |
| CursorFollower.CursorFollowerView.Leave | src/components/ui/CursorFollower.tsx:24-27 | invisible with an empty trail |
| CursorFollower.CursorFollowerView.Hover | src/components/ui/CursorFollower.tsx:29-40 | the hover flag takes the clickable test's result |
| CursorFollower.CursorFollowerView.Tick | src/components/ui/CursorFollower.tsx:54-60 | a tick removes exactly the oldest point; an empty trail stays empty |
| CursorFollower.CursorFollowerView.GenerateSmoothPath | src/components/ui/CursorFollower.tsx:63-93 | the loop builds exactly the command list `SmoothPath` describes |
| CursorFollower.PathShape | src/components/ui/CursorFollower.tsx:64-90 | no path for fewer than two points; otherwise one command per point, from a move to the first point to a line to the last |
| CursorFollower.PathCurves | src/components/ui/CursorFollower.tsx:68-84 | the first curve is `Q` through the second point, the rest `S` through the following points in order |
| CursorFollower.LeaveHidesEverything | src/components/ui/CursorFollower.tsx:95-107 | nothing, in particular no path, is drawn while invisible |
| ScrollReveal.ScrollRevealView.constructor | src/hooks/useScrollReveal.ts:9-15 | `once` defaults to true; hidden at first |
| ScrollReveal.ScrollRevealView.Observe | src/hooks/useScrollReveal.ts:21-31 | an intersection shows the element (and with `once` stops observing); without `once` visibility follows the latest entry; with `once` it never goes back |
| ScrollReveal.IndexOf | src/hooks/useScrollReveal.ts:59 | the first position of the target among the children, or -1 exactly when it is not a child |
| ScrollReveal.NextIndices | src/hooks/useScrollReveal.ts:60-69 | an intersecting entry adds its index; otherwise a falsy `once` removes it; a non-child changes nothing; other indices are untouched |
| ScrollReveal.IndicesAreChildren | src/hooks/useScrollReveal.ts:59-63 | only children's indices ever enter the set |
| ScrollReveal.OnceOnlyGrows | src/hooks/useScrollReveal.ts:64-67 | with a truthy `once`, an index is visible exactly when it was before or some entry saw that child intersect |
| ScrollReveal.ScrollRevealGroupView.HandleEntries | src/hooks/useScrollReveal.ts:57-71 | the entries are applied in order, one functional update each |
| JsValues.MessageOr | src/pages/admin/CategoriesList.tsx:41 | an error's message, or the fallback for a thrown non-error |
| JsValues.AsError | src/hooks/useProjects.ts:35 | the thrown error itself, or a new error with the fallback message |
| JsValues.Get | src/services/api/client.ts:37 | a property read throws exactly on null or undefined, and otherwise gives the field |
| Http.ApiBaseUrl | src/services/api/client.ts:3 | the environment variable when set and non-empty, otherwise the default URL |
| Http.ReadJson | src/services/api/client.ts:49 | JSON text gives its value; anything else throws a SyntaxError |
| Http.Spread | src/services/api/client.ts:18-24 | every key of either record; the caller's headers win over the defaults |
| HttpClient.ErrorFromData | src/services/api/client.ts:36-41 | an error body with an `error` object becomes an `ApiRequestError` with its message, code, details and the status; without one the read throws a TypeError |
| HttpClient.Classify | src/services/api/client.ts:28-49 | a non-2xx response throws; 204 gives `{}` without reading the body; any other 2xx gives the parsed body or a SyntaxError |
| HttpClient.Answer | src/services/api/client.ts:26 | a rejected fetch propagates unchanged |
| HttpClient.DefinedPairs | src/services/api/client.ts:57-61 | never more pairs than parameters |
| HttpClient.Serialize | src/services/api/client.ts:62 | the query text is empty exactly when there are no pairs |
| HttpClient.GetEndpoint | src/services/api/client.ts:52-64 | without a parameter object the endpoint is unchanged |
| HttpClient.BodyOf | src/services/api/client.ts:72 | a body is sent exactly when the data is truthy |
| HttpClient.DefinedPairsAppend | src/services/api/client.ts:57-61 | filtering the parameters distributes over concatenation |
| HttpClient.UndefinedParamIsSkipped | src/services/api/client.ts:58 | an undefined parameter contributes nothing |
| HttpClient.DefinedParamsAreAllKept | src/services/api/client.ts:58-59 | when every value is defined, every parameter is kept |
| HttpClient.NoPairsIffAllUndefined | src/services/api/client.ts:57-62 | the query is empty exactly when every value is undefined |
| HttpClient.QueryOnlyForDefinedParams | src/services/api/client.ts:63 | the endpoint is unchanged exactly when no parameter is defined |
| HttpClient.EnvelopeBecomesApiRequestError | src/services/api/client.ts:28-41 | an error envelope becomes an `ApiRequestError` with that code, message, details and status |
| HttpClient.TypedEnvelopeBecomesApiRequestError | src/services/api/client.ts:28-41 | an error response whose body is a typed `ApiError` envelope throws the `ApiRequestError` with that message, code, status and details |
| HttpClient.UnparsableErrorBody | src/services/api/client.ts:29-34 | an unreadable error body gives `UNKNOWN_ERROR` and `HTTP error <status>` |
| HttpClient.ErrorBodyWithoutEnvelope | src/services/api/client.ts:37 | a readable error body without `error` throws a TypeError |
| HttpClient.ApiClient.constructor | src/services/api/client.ts:8-10 | the client keeps its base URL |
| HttpClient.ApiClient.Config | src/services/api/client.ts:18-24 | the request headers: JSON content type unless the caller overrides it, plus the caller's headers |
| HttpClient.ApiClient.QueryString | src/services/api/client.ts:56-62 | the loop serialises exactly the defined parameters |
| HttpClient.ApiClient.Get | src/services/api/client.ts:52-67 | a GET of the endpoint with its query, classified |
| HttpClient.ApiClient.Post | src/services/api/client.ts:69-74 | a POST carrying the data only when it is truthy |
| HttpClient.ApiClient.Put | src/services/api/client.ts:76-81 | a PUT carrying the data only when it is truthy |
| HttpClient.ApiClient.Patch | src/services/api/client.ts:83-88 | a PATCH carrying the data only when it is truthy |
| HttpClient.ApiClient.Delete | src/services/api/client.ts:90-94 | a DELETE without a body |
| Auth.LoginRequest | src/services/api/auth.ts:21-27 | a JSON POST of the credentials to `/auth/login` |
| Auth.LoginFailure | src/services/api/auth.ts:29-32 | a null or undefined JSON body throws a TypeError when `error` is read; any other body gives a plain `Error` |
| Auth.ExtractToken | src/services/api/auth.ts:37 | reading from a null or undefined body throws; otherwise the first truthy of `token`, `data.token`, `access_token`, else `access_token` itself |
| Auth.LoginOutcome | src/services/api/auth.ts:20-43 | a rejected fetch propagates; a non-2xx status throws the login failure; a 2xx body that is not JSON throws a SyntaxError |
| Auth.AuthService.constructor | src/services/api/auth.ts:17-19 | the service over the given storage |
| Auth.AuthService.Login | src/services/api/auth.ts:20-44 | success stores the token under `admin_token` and returns the raw body; any failure leaves storage as it was |
| Auth.AuthService.Logout | src/services/api/auth.ts:46-48 | removes the token and nothing else, so no token is found afterwards |
| Auth.AuthService.GetToken | src/services/api/auth.ts:50-52 | the stored token, or none |
| Auth.AuthService.IsAuthenticated | src/services/api/auth.ts:54-65 | true exactly when a non-empty token decodes to an `exp` with `exp * 1000 > now` |
| Auth.AuthService.GetAuthHeaders | src/services/api/auth.ts:67-70 | `Authorization: Bearer <token>` exactly when the token is non-empty, otherwise no header |
| Auth.ThreeTokenShapes | src/services/api/auth.ts:37 | each of the three response shapes delivers its token, and a top-level `token` wins |
| Auth.LoginStoresToken | src/services/api/auth.ts:34-43 | a 2xx body with a token stores it and returns the body |
| Auth.LoginWithoutToken | src/services/api/auth.ts:38-40 | a 2xx body without a token throws `'No token received from server'` |
| Auth.RejectedLoginMessage | src/services/api/auth.ts:29-32 | a rejected login throws the server's message, else `'Login failed'` |
| Auth.AuthenticatedEarlier | src/services/api/auth.ts:61 | a session valid now was valid at every earlier time |
| Auth.NoTokenNoSession | src/services/api/auth.ts:54-70 | no token or an empty one: not authenticated and no header |
| AdminLabNotes.AuthHeaders | src/services/api/adminLabNotes.ts:22-26 | caller headers win over the bearer header, which wins over the JSON content type |
| AdminLabNotes.RequestFailure | src/services/api/adminLabNotes.ts:36-37 | a null or undefined JSON body throws a TypeError when `error` is read; any other body gives a plain `Error` |
| AdminLabNotes.Settle | src/services/api/adminLabNotes.ts:29-44 | 401 throws `'Unauthorized'` before anything else; another non-2xx throws the failure message; 204 gives `{}`; otherwise the parsed body |
| AdminLabNotes.Route | src/services/api/adminLabNotes.ts:47-76 | each service operation's URL, method and body |
| AdminLabNotes.UnauthorizedIgnoresBody | src/services/api/adminLabNotes.ts:29-33 | a 401 gives the same error whatever its body |
| AdminLabNotes.FailureMessage | src/services/api/adminLabNotes.ts:35-38 | another failure reports the server's message when present, else the status |
| AdminLabNotes.GetAllDefaultsToHundred | src/services/api/adminLabNotes.ts:48-50 | `getAll()` asks for `limit=100` |
| AdminLabNotes.AdminLabNotesService.constructor | src/services/api/adminLabNotes.ts:19 | the service over a session and a browser location |
| AdminLabNotes.AdminLabNotesService.AuthFetch | src/services/api/adminLabNotes.ts:19-45 | the answer is settled; a 401 also logs out and redirects to `/admin/login`, and nothing else does |
| AdminLabNotes.AdminLabNotesService.Call | src/services/api/adminLabNotes.ts:47-76 | each operation goes through `authFetch` on its route; `delete` resolves to undefined |
| UseLabNotes.NotesDeps | src/hooks/useLabNotes.ts:38 | no parameters give no dependencies |
| UseLabNotes.RefetchOnlyOnTagLimitOffset | src/hooks/useLabNotes.ts:38-42 | other keys never refetch; a tag change always does |
| UseLabNotes.LabNotesHook.constructor | src/hooks/useLabNotes.ts:13-18 | no notes, no pagination, loading, no error |
| UseLabNotes.LabNotesHook.StartFetch | src/hooks/useLabNotes.ts:21 | loading, error cleared, notes and pagination kept |
| UseLabNotes.LabNotesHook.FinishFetch | src/hooks/useLabNotes.ts:23-37 | success replaces notes and pagination; failure keeps them and records the error or `'Failed to fetch lab notes'` |
| UseLabNotes.LabNoteHook.constructor | src/hooks/useLabNotes.ts:54-58 | no note, loading, no error |
| UseLabNotes.LabNoteHook.Effect | src/hooks/useLabNotes.ts:60-83 | only a non-empty slug starts a fetch; an empty slug leaves the hook loading |
| UseLabNotes.LabNoteHook.FinishFetch | src/hooks/useLabNotes.ts:64-77 | the note, or no note and the error or `'Failed to fetch lab note'` |
| UseLabNotes.LabNoteTagsHook.constructor | src/hooks/useLabNotes.ts:95-99 | no tags, loading, no error |
| UseLabNotes.LabNoteTagsHook.FinishFetch | src/hooks/useLabNotes.ts:102-117 | the tags, or an empty list and the error or `'Failed to fetch tags'` |
| UseProjects.ProjectsDeps | src/hooks/useProjects.ts:38 | no parameters give no dependencies |
| UseProjects.RefetchOnlyOnDependencies | src/hooks/useProjects.ts:38-42 | other keys never refetch; a category or offset change always does |
| UseProjects.ProjectsHook.constructor | src/hooks/useProjects.ts:13-18 | no projects, no pagination, loading, no error |
| UseProjects.ProjectsHook.StartFetch | src/hooks/useProjects.ts:21 | loading, error cleared, projects and pagination kept |
| UseProjects.ProjectsHook.FinishFetch | src/hooks/useProjects.ts:23-37 | success replaces projects and pagination; failure keeps them and records the error or `'Failed to fetch projects'` |
| UseProjects.FeaturedProjectsHook.constructor | src/hooks/useProjects.ts:48-52 | no projects, loading, no error |
| UseProjects.FeaturedProjectsHook.StartFetch | src/hooks/useProjects.ts:56 | loading, error cleared, projects kept |
| UseProjects.FeaturedProjectsHook.FinishFetch | src/hooks/useProjects.ts:58-71 | the featured projects, or an empty list and the error or `'Failed to fetch featured projects'` |
| UseProjects.ProjectHook.constructor | src/hooks/useProjects.ts:87-91 | no project, loading, no error |
| UseProjects.ProjectHook.Effect | src/hooks/useProjects.ts:93-116 | only a non-empty slug starts a fetch |
| UseProjects.ProjectHook.FinishFetch | src/hooks/useProjects.ts:97-110 | the project, or no project and the error or `'Failed to fetch project'` |
| UseProjects.ProjectCategoriesHook.constructor | src/hooks/useProjects.ts:128-132 | no categories, loading, no error |
| UseProjects.ProjectCategoriesHook.FinishFetch | src/hooks/useProjects.ts:135-149 | the categories, or an empty list and the error or `'Failed to fetch categories'` |
| UseContact.FieldErrorKeys | src/hooks/useContact.ts:39-45 | the dictionary is built exactly when no detail is null or undefined, and its keys are the details' fields |
| UseContact.LastDetailWins | src/hooks/useContact.ts:42-44 | the last detail naming a field decides its message |
| UseContact.FieldErrorsOf | src/hooks/useContact.ts:41-45 | falsy details give `{}`; an array is folded; any other truthy value throws a TypeError |
| UseContact.CollectFieldErrors | src/hooks/useContact.ts:42-44 | the `forEach` loop builds exactly the specified dictionary, or throws the same TypeError |
| UseContact.ThrowStops | src/hooks/useContact.ts:42-44 | once a detail throws, later details change nothing |
| UseContact.ContactFormView.constructor | src/hooks/useContact.ts:13-18 | not submitting, no success, no error, no field errors |
| UseContact.ContactFormView.StartSubmit | src/hooks/useContact.ts:21-26 | submitting, with every earlier outcome cleared |
| UseContact.ContactFormView.FinishSubmit | src/hooks/useContact.ts:28-62 | success; an API error with its message and field errors; any other error with the fixed message; a throw while mapping details rejects and leaves the state |
| UseContact.ContactFormView.Reset | src/hooks/useContact.ts:65-72 | back to the initial state |
| UseAuth.AuthHookView.constructor | src/hooks/useAuth.ts:11-15 | not authenticated, loading, no error |
| UseAuth.AuthHookView.Mount | src/hooks/useAuth.ts:17-23 | the session check, loading done |
| UseAuth.AuthHookView.StartLogin | src/hooks/useAuth.ts:26 | loading, error cleared |
| UseAuth.AuthHookView.Login | src/hooks/useAuth.ts:25-44 | authenticated exactly when the service login succeeds; a failure shows the message or `'Login failed'`; the stored token changes only on success |
| UseAuth.AuthHookView.Logout | src/hooks/useAuth.ts:46-53 | the token is removed and the hook is signed out |

## Left out

- Rendering, CSS classes, icons, links, timers and their cleanup are not modelled. Nor are the order in which React runs effects and the races between overlapping requests or an unmount during an `await`. Each `await` is one `Start…`/`Finish…` pair.
- `toLowerCase` is modelled for ASCII letters only. Unicode case mapping, such as `İ` or the Kelvin sign becoming ASCII letters, is not modelled.
- JavaScript's white-space set is modelled as the characters `\s` and `trim()` match. Surrogate pairs are single `char`s.
- Numbers are integers. Floating point, `NaN` and fractional pixel coordinates are not modelled, and the path's control points are kept exactly, in sixths of a pixel.
- `CursorFollower.GenerateSmoothPath` returns the command list. The number formatting of the SVG `d` string is not modelled.
- `ApiTypes.Project` / `ArchivePage.CategoryOf`: the project's `category` is modelled as the string id that the archive filter compares against and the editor copies into its `'engineering' | 'ml'` field. The declared `Category` object type of `Project.category` is not modelled; under that type the archive filter would match nothing for an id other than `'all'`.
- `JSON.stringify` of request bodies is not modelled: a request carries the value. URL percent-encoding in `URLSearchParams` is not modelled: pairs are joined as `key=value`.
- `Object.entries` order for integer-like keys is not modelled: query parameters are a sequence in the caller's order.
- Header names are compared case-sensitively.
- The JWT payload decoding (`atob`, `JSON.parse`) is a parameter `decodeExp`, and `Date.now()` is a parameter `now`.
- `localStorage` is a map field. `window.location.href` is a string field. `confirm` and `alert` are a parameter and a result.
- The DOM test for clickable elements in `CursorFollower` is a parameter of `Hover`.
- The intersection observer's thresholds and root margin are not modelled: entries are given.
- Elements are integers, so `Array.from(container.children)` is a sequence of identities.
- `StreamingText.StreamingTextView` keeps the text constant. A change of the `children` prop while streaming is not modelled.
- The form setters that only copy an input into one field are not modelled as separate members. These are the description, category, year and link fields, and the featured and published checkboxes.
- The category editor's description field is likewise not modelled.
- The thin service wrappers in `projects.ts`, `labNotes.ts`, `categories.ts`, `contact.ts`, `adminProjects.ts` and `adminCategories.ts`, and the upload service, are not modelled. Each is a single client call, and its outcome is a parameter of the hook or page that awaits it.
- `UseContact.KeyOf`: a field named `__proto__` would set the dictionary's prototype instead of adding a key. The model treats it as an ordinary key.
- `Archive.StaticProject` keeps only the id and category of the static projects. Titles, descriptions and metrics do not affect the filter.
- The login page, protected route, header, scroll spy and the remaining pages are not part of this model.
