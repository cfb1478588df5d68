# Flow dashboard — a verified model of its list, form and route logic

Flow is a personal productivity dashboard: a React single-page client over
a FastAPI backend that keeps each user's tasks, notes, blog posts and tags,
logs what the user does, and serves analytics and exports. This project
models the part of it that decides things:

* the backend **routes** — listing with search, filters, ordering and
  paging, creation, partial update, deletion, the drag-and-drop reorder of
  tasks, tags with their name-uniqueness rule and delete cascade, sign-up,
  login, profile and avatar upload, the activity log, analytics, export and
  dashboard counts — over a `Store.Database` object whose tables are maps
  from ids to rows and whose activity log is a sequence;
* the **request schemas** (defaults, length bounds, enum values, the
  password rule) as parsing functions that either build the payload or
  list the violations;
* the **search sanitiser** that escapes `LIKE` wildcards, with its round
  trip and injectivity;
* the **client pages** — the generic list hook, the tasks, notes and posts
  pages, the tag selector and manager, the register, login, profile and
  activity pages and the dashboard shell — as classes whose methods update
  the page's state, record the requests the page sends and the toasts it
  shows; what the network answers is a parameter of each method;
* the **client validators and formatters** (the form rules, the error
  message chosen from a server answer, the pagination control, the query
  strings, the `X-Total-Count` header read back with `parseInt`).

One Dafny module per source file; shared pieces (`Wrappers`, `Text`,
`Listing`, `FormRules`, `ListQuery`, `Client`, `Store`) are modules of their
own. `Listing` gives the list routes one definition of filter (`Keep`),
`ORDER BY` (`OrderBy`, a stable insertion sort) and `LIMIT/OFFSET`
(`Window`); every list route is proved against it.

## Model

| member | source | states |
|---|---|---|
| Text.TrimStartFacts | frontend/src/pages/TasksPage.js:289 | `trim`'s left half drops exactly the leading run of JavaScript white space and keeps a suffix |
| Text.TrimEndFacts | frontend/src/pages/TasksPage.js:289 | the right half drops exactly the trailing run of white space and keeps a prefix |
| Text.BlankIffAllSpace | frontend/src/pages/TasksPage.js:289 | `!s.trim()` holds exactly when every character of `s` is white space |
| Text.Trim | frontend/src/pages/TasksPage.js:289 | `String.prototype.trim`; specified by TrimStartFacts, TrimEndFacts and BlankIffAllSpace |
| Text.Join | backend/routes/data.py:212 | joining no parts gives the empty string and joining one part gives that part |
| Text.JoinLength | backend/routes/data.py:212 | a join is as long as its parts plus one separator between each two of them |
| Text.JoinSnoc | backend/routes/data.py:212 | joining one more part appends the separator and then that part |
| Text.ToLowerAscii | backend/routes/auth.py:131 | a letter stays a letter and is no longer upper case; any other character is unchanged |
| Text.Lower | backend/routes/auth.py:131 | `lower()` keeps the length and maps every character on its own |
| Text.ToUpperAscii | frontend/src/pages/DashboardLayout.js:202 | a letter stays a letter and is no longer lower case; any other character is unchanged |
| Text.Upper | backend/routes/data.py:208 | `upper()` keeps the length and maps every character on its own |
| Text.DigitChar | backend/routes/tasks.py:49 | a digit value below ten is written as a decimal digit character |
| Text.DigitValue | frontend/src/hooks/useCrudResource.js:35 | a digit character reads as a value below ten |
| Text.ShowNat | backend/routes/tasks.py:49 | `str(n)` is a non-empty string of decimal digits |
| Text.ShowInt | frontend/src/hooks/useCrudResource.js:30-31 | `String(i)` is non-empty, starts with `-` exactly when `i` is negative, and is digits otherwise |
| Text.ShowIntRoundTrip | frontend/src/hooks/useCrudResource.js:30-31 | the digits of `String(i)` parse back to the magnitude of `i`, after the `-` of a negative number |
| Text.LeadingDigits | frontend/src/hooks/useCrudResource.js:35 | the longest digit prefix: a prefix, all digits, and followed by no digit |
| Text.ParseIntPrefix | frontend/src/hooks/useCrudResource.js:35 | `parseInt` gives NaN exactly for an empty string or one that does not start with a digit |
| Text.DigitsValueOfShowNat | backend/routes/tasks.py:49 | reading back the digits of `str(n)` gives `n` |
| Text.LeadingDigitsOfDigits | frontend/src/hooks/useCrudResource.js:35 | a string made only of digits is its own digit prefix |
| Text.ParseShowRoundTrip | frontend/src/hooks/useCrudResource.js:35 | `parseInt(str(n))` is `n`: the header the backend writes is read back unchanged |
| SearchSanitizer.ReplaceCharAppend | backend/helpers.py:9-11 | replacing one character distributes over concatenation |
| SearchSanitizer.SanitizeIsEscapeEach | backend/helpers.py:9-11 | the three chained replacements escape every `\`, `%` and `_` exactly once: the backslashes the first one inserts are never escaped again |
| SearchSanitizer.SanitizeSearch | backend/helpers.py:9-11 | `sanitize_search`, the three chained `replace` calls; specified by SanitizeIsEscapeEach, SanitizeLength and SanitizeRoundTrip |
| SearchSanitizer.SanitizeUnchangedWithoutSpecials | backend/helpers.py:9-11 | a term without `\`, `%` or `_` is returned unchanged |
| SearchSanitizer.EscapeEachUnchanged | backend/helpers.py:9-11 | the per-character reference escaping leaves a term without special characters alone |
| SearchSanitizer.SanitizeLength | backend/helpers.py:9-11 | the output is one character longer per escaped character |
| SearchSanitizer.EscapeEachLength | backend/helpers.py:9-11 | the same length law for the reference escaping |
| SearchSanitizer.EscapeEachLiteral | backend/helpers.py:9-11 | the reference escaping yields a pattern with no live wildcard whose unescaping is the input |
| SearchSanitizer.SanitizeRoundTrip | backend/helpers.py:9-11 | the sanitised term is a `LIKE` pattern with no live wildcard and no dangling `\`, and removing the escapes gives back the term |
| SearchSanitizer.SanitizeInjective | backend/helpers.py:9-11 | two different terms never give the same pattern |
| SearchSanitizer.LiteralPatternWildcardsEscaped | backend/helpers.py:9-11 | in such a pattern every `%` and `_` sits right after an escaping backslash |
| Pagination.TotalPages | frontend/src/hooks/useCrudResource.js:45 | `Math.ceil(total / size)`: the fewest pages that hold all rows; zero pages exactly for zero rows |
| Pagination.Render | frontend/src/components/Pagination.js:10-41 | the control is hidden exactly for at most one page; Previous is disabled exactly on page 1 or before, Next exactly on the last page or after |
| Pagination.ClickStaysInBounds | frontend/src/components/Pagination.js:18-32 | from a page in range, every enabled button asks for the neighbouring page, again in range |
| Pagination.EnabledAtBounds | frontend/src/components/Pagination.js:11-32 | Previous is clickable exactly when there are several pages and the page is past the first; Next exactly when there are several pages and the page is before the last |
| Pagination.FortyFiveRows | frontend/src/pages/TasksPage.js:221 | 45 rows at 20 per page make three pages, and page 3 offers no Next |
| Client.ParseTotal | frontend/src/hooks/useCrudResource.js:35 | a missing or empty `X-Total-Count` header counts as 0 |
| Client.ParseTotalOfShow | frontend/src/hooks/useCrudResource.js:35 | the count the list routes write with `str(total)` is the count the client reads |
| FormRules.OneLineHasBoth | frontend/src/pages/RegisterPage.js:36 | a password the two look-aheads accept has a letter and a digit |
| FormRules.LetterAndDigitOnOneLine | frontend/src/pages/RegisterPage.js:36 | the two look-aheads of the password pattern; specified by OneLineHasBoth and SplitLinesRejected |
| FormRules.SplitLinesRejected | frontend/src/pages/RegisterPage.js:36 | the converse fails: `abcdefg\n1` has a letter and a digit but on two lines, so the expression rejects it |
| FormRules.EmailExamples | frontend/src/pages/RegisterPage.js:32 | `a@b.c` matches the e-mail expression; `a@b` and `@b.c` do not |
| FormRules.EmailLike | frontend/src/pages/RegisterPage.js:32 | `/\S+@\S+\.\S+/.test`; specified by EmailExamples and EmailRule |
| FormRules.EmailRule | frontend/src/pages/RegisterPage.js:31-32 | the e-mail passes exactly when it matches the expression; "required" exactly when empty (the sign-in form, LoginPage.js lines 26-27, uses the same rule) |
| FormRules.ErrorsOf4 | frontend/src/pages/RegisterPage.js:26-42 | the error object of four rules is the four rules recorded in order |
| FormRules.ErrorsOf2 | frontend/src/pages/LoginPage.js:24-31 | the error object of two rules is the two rules recorded in order |
| FormRules.ErrorsOfExact | frontend/src/pages/RegisterPage.js:26-42 | with distinct field names the error object holds exactly the fields whose rule failed |
| FormRules.ErrorsOf | frontend/src/pages/RegisterPage.js:26-42 | the error object `validate` builds, rule by rule; specified by ErrorsOf2, ErrorsOf4, ErrorsOfExact and ErrorsOfEmpty |
| FormRules.ErrorsOfEmpty | frontend/src/pages/RegisterPage.js:41-42 | the form is valid (no keys) exactly when every rule passed |
| FormRules.ItemTexts | frontend/src/pages/RegisterPage.js:65 | `detail.map(err => err.msg)` keeps one text per item, in order |
| Schemas.ParseStatus | backend/schemas.py:7-10 | the status enum member with this value, and none when no member carries it |
| Schemas.ParsePriority | backend/schemas.py:12-15 | the priority enum member with this value, and none when no member carries it |
| Schemas.StatusNamesRoundTrip | backend/schemas.py:7-15 | every enum member parses back from its own value |
| Schemas.LengthViolations | backend/schemas.py:44-46 | a string field with length bounds reports exactly one violation when its length is outside them, none otherwise |
| Schemas.OptionalLengthViolations | backend/schemas.py:48-50 | an optional field is checked only when it is given |
| Schemas.MinLengthViolations | backend/schemas.py:20 | `min_length` alone: a violation exactly below the minimum |
| Schemas.PasswordComplexity | backend/schemas.py:22-30 | the password validator accepts exactly a password with a letter and a digit; the letter test fails first |
| Schemas.PasswordViolations | backend/schemas.py:20-30 | the password field is accepted exactly when it has 8 characters, a letter and a digit |
| Schemas.ParseUserRegister | backend/schemas.py:18-30 | a sign-up body is accepted exactly for a valid e-mail, a complex enough password and a name of two characters, and is then taken as given; a refusal lists at least one violation |
| Schemas.ParseTagCreate | backend/schemas.py:44-46 | a tag name of 1 to 50 characters is accepted; an omitted colour becomes `"default"`, a given one is kept |
| Schemas.ParseTagUpdate | backend/schemas.py:48-50 | a given name obeys the same bounds; the fields are taken as given |
| Schemas.EnumViolations | backend/schemas.py:78-84 | an enum field is refused exactly when its text names no member |
| Schemas.SuppliedEnumViolations | backend/schemas.py:78-84 | an omitted enum field is never refused |
| Schemas.ParseTaskCreate | backend/schemas.py:78-84 | a task body is accepted exactly for a 1..255-character title and known enum values; status defaults to todo, priority to medium, tags to `[]` |
| Schemas.ParseTaskUpdate | backend/schemas.py:86-93 | an update body: every field is optional, a given title obeys the bounds and a given enum value must be known; the fields are taken as given |
| Schemas.ParseNoteCreate | backend/schemas.py:114-119 | a note body is accepted exactly for a 1..255-character title; colour defaults to `"default"`, the pin flag to false, tags to `[]` |
| Schemas.ParseNoteUpdate | backend/schemas.py:121-126 | a note update is accepted exactly when a given title obeys the bounds |
| Schemas.ParsePostCreate | backend/schemas.py:142-146 | a post body is accepted exactly for a 1..255-character title; it is a draft unless said otherwise, with no tags |
| Schemas.ParsePostUpdate | backend/schemas.py:148-152 | a post update is accepted exactly when a given title obeys the bounds |
| Schemas.EmptyTaskUpdate | backend/schemas.py:86-93 | an empty update body is accepted and gives no field |
| Listing.InsertFacts | backend/routes/tasks.py:51 | inserting one row into key order keeps key order and adds exactly that row |
| Listing.HeadBelowInsert | backend/routes/tasks.py:51 | a row that goes after the head of an ordered list leaves the head below everything in the rest |
| Listing.SortFacts | backend/routes/tasks.py:51 | the sort gives the same rows in key order |
| Listing.OrderByFacts | backend/routes/tasks.py:51 | `ORDER BY`: the same rows, each as often as before, in ascending key order |
| Listing.OrderBy | backend/routes/tasks.py:51 | `ORDER BY` as a sort of the rows by their key; specified by OrderByFacts |
| Listing.MultisetDistinct | backend/routes/tasks.py:51 | reordering a list without repeats gives a list without repeats |
| Listing.KeepFacts | backend/routes/tasks.py:33-46 | the filter keeps exactly the rows of the scan that pass, never adds a repeat and never grows |
| Listing.Keep | backend/routes/tasks.py:33-46 | the `WHERE` filter over a scan; specified by KeepFacts, KeepSnoc and KeepNone |
| Listing.KeepSnoc | backend/routes/tasks.py:33-46 | filtering a scan grown by one row grows the result by that row exactly when it passes |
| Listing.KeepNone | backend/routes/tasks.py:33-46 | no row passes, nothing is kept |
| Listing.DistinctCard | backend/routes/tasks.py:48-49 | a list without repeats is as long as its set |
| Listing.Window | backend/routes/tasks.py:51 | `LIMIT/OFFSET`: the rows from the offset on, at most `limit` of them |
| Listing.ListPage | backend/routes/tasks.py:47-53 | a list route's two queries over one scan: the count of the matching rows and the ordered window |
| Listing.PageCount | backend/routes/tasks.py:47-49 | the count equals the number of distinct matching rows |
| Listing.WindowFacts | backend/routes/tasks.py:51 | a window of a list without repeats holds rows of it, once each |
| Listing.OrderedKept | backend/routes/tasks.py:51 | the ordered rows are exactly the matching ones, once each, in key order |
| Listing.PageFacts | backend/routes/tasks.py:47-53 | a page shows only matching rows, in key order, none twice, and `limit` of them unless the matches run out |
| ListQuery.ValuesOfAppend | frontend/src/hooks/useCrudResource.js:26-31 | the values sent under a key of a concatenated query are those of its halves, in order |
| ListQuery.SentFiltersAppend | frontend/src/hooks/useCrudResource.js:27-29 | one more filter entry adds its parameter exactly when it is sent |
| ListQuery.BuildParams | frontend/src/hooks/useCrudResource.js:26-31 | the query the hook builds is the sent filters followed by `limit` and `offset` |
| ListQuery.SentFiltersMembership | frontend/src/hooks/useCrudResource.js:27-29 | a filter is sent, with its rendered value, exactly when its value is truthy and not `'all'` |
| ListQuery.SentFilters | frontend/src/hooks/useCrudResource.js:27-29 | the filter entries that are appended; specified by SentFiltersAppend and SentFiltersMembership |
| ListQuery.ValuesOfSingle | frontend/src/hooks/useCrudResource.js:26-31 | one parameter carries its value under its own key only |
| ListQuery.PagingParamsValues | frontend/src/hooks/useCrudResource.js:30-31 | the paging suffix carries `limit=size` and `offset=(page-1)*size` and nothing else |
| ListQuery.OptionalFilterValues | frontend/src/pages/TasksPage.js:249-251 | a select filter is sent when set and not `'all'` |
| ListQuery.OptionalSearchValues | frontend/src/pages/TasksPage.js:248 | the search box is sent whenever it is not empty, `'all'` included |
| ListQuery.OptionalFlagValues | frontend/src/pages/NotesPage.js:96 | a flag filter is sent as `'true'` when on and never as `'false'` |
| ListQuery.ValuesOfConcat4 | frontend/src/pages/TasksPage.js:245-264 | the values under a key of four concatenated parts, in order |
| ListQuery.TasksQuery | frontend/src/pages/TasksPage.js:245-264 | a task-list request carries under each key exactly: the search when not empty, each select when set and not `'all'`, one `limit` of 20 and one offset |
| ListQuery.NotesQuery | frontend/src/pages/NotesPage.js:91-110 | a note-list request: the search, `is_pinned=true` only when pinned is on, colour and tag when set, then paging |
| ListQuery.PostsQuery | frontend/src/pages/PostsPage.js:81-99 | a post-list request: the search, `is_published=true` only when on, the tag when set, then paging |
| ListQuery.TasksParams | frontend/src/pages/TasksPage.js:248-254 | the task-list query; specified by TasksQuery |
| ListQuery.NotesParams | frontend/src/pages/NotesPage.js:91-110 | the note-list query; specified by NotesQuery |
| ListQuery.PostsParams | frontend/src/pages/PostsPage.js:81-99 | the post-list query; specified by PostsQuery |
| ListQuery.ActivityQuery | frontend/src/pages/ActivityPage.js:53 | the activity query string is empty exactly for `'all'` and otherwise `?entity_type=` followed by the filter |
| Store.Database.constructor | backend/models.py:46-125 | a database starts with empty tables and an empty activity log |
| Store.Database.LogActivity | backend/helpers.py:14-29 | logging appends exactly one row with the given fields and changes no table |
| Store.SelectOwnedTags | backend/routes/tasks.py:80-86 | the tags kept from a `tag_ids` list are exactly the listed ids that name a tag of the user |
| Store.OwnedTagIds | backend/routes/tasks.py:80-86 | the listed ids that name a tag of the user; SelectOwnedTags is proved to compute it |
| CrudResource.CrudResource.constructor | frontend/src/hooks/useCrudResource.js:14-21 | the hook starts loading, on page 1, with no rows, and defaults the entity name to `item` and the page size to 20 |
| CrudResource.CrudResource.TotalPages | frontend/src/hooks/useCrudResource.js:45 | the page count is the ceiling of count over size |
| CrudResource.CrudResource.Fetch | frontend/src/hooks/useCrudResource.js:23-41 | one GET with the current query; success replaces rows and count, failure keeps both and toasts once; loading ends either way |
| CrudResource.CrudResource.Mutate | frontend/src/hooks/useCrudResource.js:47-65 | a change request: on success a toast and a refetch, on failure nothing but the request, and the error is handed back |
| CrudResource.CrudResource.CreateItem | frontend/src/hooks/useCrudResource.js:47-52 | POST to the endpoint, handing back its outcome; on failure only the request is logged and the rows, count, toasts and `loading` are kept; on success the request and the refetch are logged, the success toast and any fetch-failure toast are shown, a good refetch replaces rows and count, a failed one keeps both, and `loading` ends false ("created successfully") |
| CrudResource.CrudResource.UpdateItem | frontend/src/hooks/useCrudResource.js:54-59 | PUT to the item's path, handing back its outcome; on failure only the request is logged and the rows, count, toasts and `loading` are kept; on success the request and the refetch are logged, the success toast and any fetch-failure toast are shown, a good refetch replaces rows and count, a failed one keeps both, and `loading` ends false ("updated successfully") |
| CrudResource.CrudResource.DeleteItem | frontend/src/hooks/useCrudResource.js:61-65 | DELETE of the item's path, handing back its outcome; on failure only the request is logged and the rows, count, toasts and `loading` are kept; on success the request and the refetch are logged, the success toast and any fetch-failure toast are shown, a good refetch replaces rows and count, a failed one keeps both, and `loading` ends false ("deleted successfully") |
| CrudResource.CrudResource.SetPage | frontend/src/hooks/useCrudResource.js:43 | a page change refetches exactly when the page differs: then one GET with the new page, its toast, the rows and header count from a good response or the old ones after a failure, and `loading` false; otherwise no request and rows, count, toasts and `loading` kept |
| CrudResource.CrudResource.ResetPage | frontend/src/hooks/useCrudResource.js:67 | back to page 1: from another page one GET for page 1 with its outcome (toasts, rows, count, `loading` false); on page 1 already no request and the list state kept |
| CrudResource.CrudResource.SetFilters | frontend/src/hooks/useCrudResource.js:43 | new filters refetch exactly when they differ, keeping the page: then one GET with the new filters and its outcome (toasts, rows, count, `loading` false); otherwise no request and the list state kept |
| TagComponents.FindClass | frontend/src/components/TagComponents.js:35 | the lookup finds the first palette entry with the colour, and none when no entry has it |
| TagComponents.FindClassUnique | frontend/src/components/TagComponents.js:35 | with distinct palette values it finds the class of the one entry with the colour |
| TagComponents.PaletteDistinct | frontend/src/components/TagComponents.js:23-32 | no two palette entries share a value |
| TagComponents.BadgeClassLookup | frontend/src/components/TagComponents.js:34-50 | a palette colour gets its own class, any other the fallback `bg-slate-500` |
| TagComponents.BadgeClass | frontend/src/components/TagComponents.js:34-50 | the badge class of a tag colour; specified by BadgeClassLookup |
| TagComponents.Remove | frontend/src/components/TagComponents.js:57 | the filter drops every occurrence of the id and keeps the other ids in order |
| TagComponents.ToggleTag | frontend/src/components/TagComponents.js:55-61 | a selected id is removed (every copy, `Remove`) and an unselected one is appended at the end; after the toggle the id is selected exactly when it was not, and every other id keeps its membership |
| TagComponents.RemoveAppended | frontend/src/components/TagComponents.js:55-61 | appending an id and removing it again gives the removal of the original |
| TagComponents.RemoveTwice | frontend/src/components/TagComponents.js:57 | removing twice is removing once |
| TagComponents.RemoveConcat | frontend/src/components/TagComponents.js:57 | removal distributes over concatenation |
| TagComponents.ToggleTwice | frontend/src/components/TagComponents.js:55-61 | toggling an unselected id on and off gives back the selection |
| TagComponents.ToggleKeepsOthers | frontend/src/components/TagComponents.js:55-61 | a toggle leaves the other ids and their order alone |
| TagComponents.FindTag | frontend/src/components/TagComponents.js:67 | the first available tag with this id, and none when there is none |
| TagComponents.SelectedShown | frontend/src/components/TagComponents.js:66-69 | one badge per selected id that names an available tag, in selection order |
| TagComponents.Ids | frontend/src/pages/TasksPage.js:372 | the ids of a tag list, in order |
| TagComponents.DanglingSkipped | frontend/src/components/TagComponents.js:66-69 | a selected id with no available tag gets no badge |
| TagComponents.AllKnownAllShown | frontend/src/components/TagComponents.js:66-69 | when every selected id is available the badges carry exactly the selection, in order |
| TagComponents.TagManager.constructor | frontend/src/components/TagComponents.js:113-119 | the manager starts loading, with no tags, an empty form and a closed dialog |
| TagComponents.TagManager.FetchTags | frontend/src/components/TagComponents.js:121-130 | one GET `/tags`; success replaces the tags, failure keeps them and toasts; loading ends either way |
| TagComponents.TagManager.HandleCreate | frontend/src/components/TagComponents.js:137-154 | a blank name is refused with a toast and no request; otherwise the form is posted; success toasts "Tag created", closes and clears the dialog and refetches the list (taking the new tags or keeping the old on a failed refetch); failure shows the server's detail or a fallback; a blank name keeps `formLoading`; a refused or failed create keeps the dialog open and `loading`; a successful one ends with `loading` false |
| TagComponents.TagManager.HandleDelete | frontend/src/components/TagComponents.js:156-164 | success toasts "Tag deleted" and refetches the list, taking its tags or keeping the old ones; failure toasts and sends nothing more; success ends with `loading` false, failure keeps `loading` |
| TagComponents.ServerMessage | frontend/src/components/TagComponents.js:150 | the server's detail when it is a non-empty string, the fallback otherwise |
| TagComponents.TagsHook.constructor | frontend/src/components/TagComponents.js:235-238 | the hook starts loading with no tags |
| TagComponents.TagsHook.Load | frontend/src/components/TagComponents.js:240-251 | the mount fetch replaces the tags on success and only logs a failure |
| TagComponents.TagsHook.Refetch | frontend/src/components/TagComponents.js:254-257 | a refetch has no `catch`: failure changes nothing and is reported to the caller |
| TagComponents.MountFailure | frontend/src/components/TagComponents.js:235-258 | a failed first load leaves no tags and loading over |
| TasksPage.RemoveAt | frontend/src/pages/TasksPage.js:276 | removing index `i` shifts the later elements down by one |
| TasksPage.InsertAt | frontend/src/pages/TasksPage.js:276 | inserting at `i` puts the element there, and removing it again gives the original |
| TasksPage.ArrayMoveIsMove | frontend/src/pages/TasksPage.js:276 | `arrayMove` is a permutation that puts the moved element at its target and keeps the others in order |
| TasksPage.ArrayMove | frontend/src/pages/TasksPage.js:276 | dnd-kit's `arrayMove` as splice out and splice in; specified by ArrayMoveIsMove and ArrayMoveInPlace |
| TasksPage.ArrayMoveInPlace | frontend/src/pages/TasksPage.js:276 | moving an element onto itself changes nothing |
| TasksPage.TaskIds | frontend/src/pages/TasksPage.js:280 | the ids of the tasks, in order |
| TasksPage.FindIndex | frontend/src/pages/TasksPage.js:274-275 | the first index with the id, or -1 exactly when no task has it |
| TasksPage.WithStatus | frontend/src/pages/TasksPage.js:352 | only tasks with the id get the new status; the rest are untouched |
| TasksPage.WithStatusFacts | frontend/src/pages/TasksPage.js:352 | the rewrite keeps every id in place, changes nothing when the status is already set, and is idempotent |
| TasksPage.EditForm | frontend/src/pages/TasksPage.js:364-375 | the edit form copies the task, turning a missing description into `''` and the tags into their ids |
| TasksPage.DroppedIsMove | frontend/src/pages/TasksPage.js:271-286 | after a drop the dragged task sits where the target was and the others keep their order |
| TasksPage.Dropped | frontend/src/pages/TasksPage.js:274-276 | the list after the drop, from the two `findIndex` results; specified by DroppedIsMove |
| TasksPage.TasksPage.constructor | frontend/src/pages/TasksPage.js:207-236 | the page starts loading on page 1 with filters taken from the URL and no tag filter |
| TasksPage.TasksPage.TotalPages | frontend/src/pages/TasksPage.js:514 | the page count handed to the pagination control is the ceiling of count over 20 |
| TasksPage.TasksPage.Fetch | frontend/src/pages/TasksPage.js:245-264 | one GET `/tasks` with the current query; success replaces tasks and count, failure keeps them and toasts; loading ends |
| TasksPage.TasksPage.Apply | frontend/src/pages/TasksPage.js:266-269 | the fetch effect runs once, with the new query, exactly when a dependency changed; otherwise requests, list, count and toasts stay; a refetch ends with `loading` false and no refetch keeps it; only the filters, page, list, count, requests, toasts and `loading` may change, so the dialogs, the form and the selection are untouched |
| TasksPage.TasksPage.SetSearchInput | frontend/src/pages/TasksPage.js:214-215 | typing sends nothing until the debounced value settles; only the search box changes |
| TasksPage.TasksPage.SearchSettled | frontend/src/pages/TasksPage.js:215 | a changed settled search refetches with the new query and takes its outcome; an unchanged one leaves requests, list and toasts alone; a refetch ends with `loading` false and no refetch keeps it; only the filters, page, list, count, requests, toasts and `loading` may change, so the dialogs, the form and the selection are untouched |
| TasksPage.TasksPage.SetStatusFilter | frontend/src/pages/TasksPage.js:216 | a status choice replaces that filter only, keeping the page; a change refetches with the new query and takes its outcome, no change leaves the list alone; a refetch ends with `loading` false and no refetch keeps it; only the filters, page, list, count, requests, toasts and `loading` may change, so the dialogs, the form and the selection are untouched |
| TasksPage.TasksPage.SetPriorityFilter | frontend/src/pages/TasksPage.js:217 | a priority choice replaces that filter only; a change refetches with the new query and takes its outcome, no change leaves the list alone; a refetch ends with `loading` false and no refetch keeps it; only the filters, page, list, count, requests, toasts and `loading` may change, so the dialogs, the form and the selection are untouched |
| TasksPage.TasksPage.SetTagFilter | frontend/src/pages/TasksPage.js:218 | a tag choice replaces that filter only; a change refetches with the new query and takes its outcome, no change leaves the list alone; a refetch ends with `loading` false and no refetch keeps it; only the filters, page, list, count, requests, toasts and `loading` may change, so the dialogs, the form and the selection are untouched |
| TasksPage.TasksPage.SetPage | frontend/src/pages/TasksPage.js:514 | a page change refetches exactly when the page differs, and takes that fetch's outcome; a refetch ends with `loading` false and no refetch keeps it; only the filters, page, list, count, requests, toasts and `loading` may change, so the dialogs, the form and the selection are untouched |
| TasksPage.TasksPage.ClearFilters | frontend/src/pages/TasksPage.js:394-400 | the search box and selects are emptied and the page goes back to 1; a change refetches page 1 with empty filters, no change leaves the list alone; a refetch ends with `loading` false and no refetch keeps it; only the search box, the filters, page, list, count, requests, toasts and `loading` may change, so the dialogs, the form and the selection are untouched |
| TasksPage.TasksPage.HandleDragEnd | frontend/src/pages/TasksPage.js:271-286 | a drop elsewhere shows the moved order at once and posts its ids; success keeps count and `loading`; a failed post toasts and refetches, whose good response replaces the rows and count and whose failure keeps the moved order and the count |
| TasksPage.TasksPage.SendOrder | frontend/src/pages/TasksPage.js:277-284 | the new order is shown and its ids posted; success keeps the count and `loading`; failure toasts and refetches, whose good response replaces rows and count and whose failure keeps the order and the count |
| TasksPage.TasksPage.HandleQuickUpdate | frontend/src/pages/TasksPage.js:347-362 | the same status sends nothing; another status is shown at once and sent alone; success toasts "Status updated" and refetches (a good response replaces rows and count, a failed one keeps the rewritten list), failure rolls the list back and toasts; wherever no refetch happens the count and `loading` are kept, a failed refetch keeps the count, and every refetch ends with `loading` false; the dialogs, the form and the selection are untouched |
| TasksPage.TasksPage.ResetForm | frontend/src/pages/TasksPage.js:382-392 | the form is emptied and the selection cleared, nothing else changes |
| TasksPage.TasksPage.HandleCreate | frontend/src/pages/TasksPage.js:288-308 | a blank title is refused with a toast and no request; otherwise the form is posted; success toasts "Task created successfully", closes, clears and refetches, taking the new list and count or keeping them on a failed refetch; failure keeps the form and list; wherever no refetch happens the count and `loading` are kept, a failed refetch keeps the count, and every refetch ends with `loading` false; a refused or failed submission keeps the create dialog flag, the form and the selection, a refused one also keeps `formLoading`, and no other dialog flag changes |
| TasksPage.TasksPage.Submit | frontend/src/pages/TasksPage.js:294-307 | the shared `try`: success toasts, clears and refetches (the refetch's outcome decides list and count); failure toasts and keeps the form, the list, its count and `loading` |
| TasksPage.TasksPage.HandleUpdate | frontend/src/pages/TasksPage.js:310-330 | like create with PUT to the selected task and "Task updated successfully"; no selection ends in the failure toast without a request; wherever no refetch happens the count and `loading` are kept, a failed refetch keeps the count, and every refetch ends with `loading` false; a refused or failed submission keeps the edit dialog flag, the form and the selection, a refused one also keeps `formLoading`, and no other dialog flag changes; a non-blank title ends with `formLoading` false |
| TasksPage.TasksPage.HandleDelete | frontend/src/pages/TasksPage.js:332-345 | DELETE of the selected task; success toasts "Task deleted successfully", closes, clears and refetches; failure toasts and keeps the selection and the list; no selection is a failure toast and leaves the list; wherever no refetch happens the count and `loading` are kept, a failed refetch keeps the count, and every refetch ends with `loading` false; no selection or a failure keeps the delete dialog flag and the selection |
| TasksPage.TasksPage.OpenEdit | frontend/src/pages/TasksPage.js:364-375 | opening the edit dialog selects the task and fills the form from it; nothing else changes |
| TasksPage.TasksPage.OpenDelete | frontend/src/pages/TasksPage.js:377-380 | opening the delete dialog selects the task; nothing else changes |
| NotesPage.CardColorLookup | frontend/src/pages/NotesPage.js:218-220 | a known colour gets its own card class, an unknown one the default card class |
| NotesPage.CardColor | frontend/src/pages/NotesPage.js:218-220 | `getCardColor`; specified by CardColorLookup |
| NotesPage.EditForm | frontend/src/pages/NotesPage.js:180-190 | the edit form copies the note, a missing content becoming `''` and the tags their ids |
| NotesPage.PinRequest | frontend/src/pages/NotesPage.js:170-178 | the pin toggle sends exactly the flipped flag |
| NotesPage.NotesPage.constructor | frontend/src/pages/NotesPage.js:61-89 | the page starts loading on page 1 with filters from the URL (pinned only for `pinned=true`) |
| NotesPage.NotesPage.TotalPages | frontend/src/pages/NotesPage.js:357 | the page count is the ceiling of count over the page size |
| NotesPage.NotesPage.Fetch | frontend/src/pages/NotesPage.js:91-110 | one GET `/notes` with the current query; success replaces notes and count, failure keeps them and toasts |
| NotesPage.NotesPage.Apply | frontend/src/pages/NotesPage.js:112-115 | the effect fetches once, with the new query, exactly when a dependency changed; otherwise requests, list and toasts stay; a refetch ends with `loading` false and no refetch keeps it; only the filters, page, list, count, requests, toasts and `loading` may change, so the dialogs, the form and the selection are untouched |
| NotesPage.NotesPage.SetSearchInput | frontend/src/pages/NotesPage.js:68-69 | typing sends nothing until the debounced value settles; only the search box changes |
| NotesPage.NotesPage.SearchSettled | frontend/src/pages/NotesPage.js:69 | a changed settled search refetches with the new query and takes its outcome; an unchanged one leaves the list alone; a refetch ends with `loading` false and no refetch keeps it; only the filters, page, list, count, requests, toasts and `loading` may change, so the dialogs, the form and the selection are untouched |
| NotesPage.NotesPage.TogglePinnedFilter | frontend/src/pages/NotesPage.js:70 | the pin filter flips and the list is refetched with the new query, taking its outcome; a refetch ends with `loading` false and no refetch keeps it; only the filters, page, list, count, requests, toasts and `loading` may change, so the dialogs, the form and the selection are untouched |
| NotesPage.NotesPage.SetColorFilter | frontend/src/pages/NotesPage.js:71 | a colour choice replaces that filter only; a change refetches with the new query, no change leaves the list alone; a refetch ends with `loading` false and no refetch keeps it; only the filters, page, list, count, requests, toasts and `loading` may change, so the dialogs, the form and the selection are untouched |
| NotesPage.NotesPage.SetTagFilter | frontend/src/pages/NotesPage.js:72 | a tag choice replaces that filter only; a change refetches with the new query, no change leaves the list alone; a refetch ends with `loading` false and no refetch keeps it; only the filters, page, list, count, requests, toasts and `loading` may change, so the dialogs, the form and the selection are untouched |
| NotesPage.NotesPage.SetPage | frontend/src/pages/NotesPage.js:357 | a page change refetches exactly when the page differs, and takes that fetch's outcome; a refetch ends with `loading` false and no refetch keeps it; only the filters, page, list, count, requests, toasts and `loading` may change, so the dialogs, the form and the selection are untouched |
| NotesPage.NotesPage.ClearFilters | frontend/src/pages/NotesPage.js:208-216 | pinned off, colour, tag and search emptied, page 1; a change refetches with that query, no change leaves the list alone; a refetch ends with `loading` false and no refetch keeps it; only the search box, the filters, page, list, count, requests, toasts and `loading` may change, so the dialogs, the form and the selection are untouched |
| NotesPage.NotesPage.Submit | frontend/src/pages/NotesPage.js:123-133 | the shared `try`: success toasts, clears and refetches (the refetch's outcome decides list and count); failure toasts and keeps the form, the list, its count and `loading` |
| NotesPage.NotesPage.HandleCreate | frontend/src/pages/NotesPage.js:117-134 | a blank title is refused before any request; otherwise the form is posted; success toasts "Note created successfully", closes, clears and refetches, taking the new list and count or keeping them on a failed refetch; failure keeps the form and the notes; wherever no refetch happens the count and `loading` are kept, a failed refetch keeps the count, and every refetch ends with `loading` false; a refused or failed submission keeps the create dialog flag, the form and the selection, a refused one also keeps `formLoading`, and no other dialog flag changes |
| NotesPage.NotesPage.HandleUpdate | frontend/src/pages/NotesPage.js:136-153 | like create with PUT to the selected note and "Note updated successfully"; failure keeps the form and the notes; no selection ends in the failure toast; wherever no refetch happens the count and `loading` are kept, a failed refetch keeps the count, and every refetch ends with `loading` false; a refused or failed submission keeps the edit dialog flag, the form and the selection, a refused one also keeps `formLoading`, and no other dialog flag changes; a non-blank title ends with `formLoading` false |
| NotesPage.NotesPage.HandleDelete | frontend/src/pages/NotesPage.js:155-168 | DELETE of the selected note; success toasts "Note deleted successfully", closes, clears and refetches; failure toasts and keeps the selection and the list; wherever no refetch happens the count and `loading` are kept, a failed refetch keeps the count, and every refetch ends with `loading` false; no selection or a failure keeps the delete dialog flag and the selection |
| NotesPage.NotesPage.TogglePin | frontend/src/pages/NotesPage.js:170-178 | the flipped flag is sent; success toasts "Note unpinned" for a pinned note and "Note pinned" otherwise, then refetches; failure toasts and keeps the list; wherever no refetch happens the count and `loading` are kept, a failed refetch keeps the count, and every refetch ends with `loading` false |
| NotesPage.NotesPage.OpenEdit | frontend/src/pages/NotesPage.js:180-190 | the edit dialog selects the note and fills the form from it; nothing else changes |
| NotesPage.NotesPage.OpenDelete | frontend/src/pages/NotesPage.js:192-195 | the delete dialog selects the note; nothing else changes |
| PostsPage.EditForm | frontend/src/pages/PostsPage.js:169-178 | the edit form copies the post, a missing content becoming `''` and the tags their ids |
| PostsPage.PublishRequest | frontend/src/pages/PostsPage.js:159-167 | the publish toggle sends exactly the flipped flag |
| PostsPage.PostsPage.constructor | frontend/src/pages/PostsPage.js:53-79 | the page starts loading on page 1 with filters from the URL (published only for `published=true`) |
| PostsPage.PostsPage.TotalPages | frontend/src/pages/PostsPage.js:342 | the page count is the ceiling of count over the page size |
| PostsPage.PostsPage.Fetch | frontend/src/pages/PostsPage.js:81-99 | one GET `/posts` with the current query; success replaces posts and count, failure keeps them and toasts |
| PostsPage.PostsPage.Apply | frontend/src/pages/PostsPage.js:101-104 | the effect fetches once, with the new query, exactly when a dependency changed; otherwise requests, list and toasts stay; a refetch ends with `loading` false and no refetch keeps it; only the filters, page, list, count, requests, toasts and `loading` may change, so the dialogs, the form and the selection are untouched |
| PostsPage.PostsPage.SetSearchInput | frontend/src/pages/PostsPage.js:60-61 | typing sends nothing until the debounced value settles; only the search box changes |
| PostsPage.PostsPage.SearchSettled | frontend/src/pages/PostsPage.js:61 | a changed settled search refetches with the new query and takes its outcome; an unchanged one leaves the list alone; a refetch ends with `loading` false and no refetch keeps it; only the filters, page, list, count, requests, toasts and `loading` may change, so the dialogs, the form and the selection are untouched |
| PostsPage.PostsPage.TogglePublishedFilter | frontend/src/pages/PostsPage.js:62 | the published filter flips and the list is refetched with the new query, taking its outcome; a refetch ends with `loading` false and no refetch keeps it; only the filters, page, list, count, requests, toasts and `loading` may change, so the dialogs, the form and the selection are untouched |
| PostsPage.PostsPage.SetTagFilter | frontend/src/pages/PostsPage.js:63 | a tag choice replaces that filter only; a change refetches with the new query, no change leaves the list alone; a refetch ends with `loading` false and no refetch keeps it; only the filters, page, list, count, requests, toasts and `loading` may change, so the dialogs, the form and the selection are untouched |
| PostsPage.PostsPage.SetPage | frontend/src/pages/PostsPage.js:342 | a page change refetches exactly when the page differs, and takes that fetch's outcome; a refetch ends with `loading` false and no refetch keeps it; only the filters, page, list, count, requests, toasts and `loading` may change, so the dialogs, the form and the selection are untouched |
| PostsPage.PostsPage.ClearFilters | frontend/src/pages/PostsPage.js:195-203 | published off, tag and search emptied, page 1; a change refetches with that query, no change leaves the list alone; a refetch ends with `loading` false and no refetch keeps it; only the search box, the filters, page, list, count, requests, toasts and `loading` may change, so the dialogs, the form and the selection are untouched |
| PostsPage.PostsPage.Submit | frontend/src/pages/PostsPage.js:112-122 | the shared `try`: success toasts, clears and refetches (the refetch's outcome decides list and count); failure toasts and keeps the form, the list, its count and `loading` |
| PostsPage.PostsPage.HandleCreate | frontend/src/pages/PostsPage.js:106-123 | a blank title is refused before any request; otherwise the form is posted; success toasts "Post created successfully", closes, clears and refetches, taking the new list and count or keeping them on a failed refetch; failure keeps the form and the posts; wherever no refetch happens the count and `loading` are kept, a failed refetch keeps the count, and every refetch ends with `loading` false; a refused or failed submission keeps the create dialog flag, the form and the selection, a refused one also keeps `formLoading`, and no other dialog flag changes |
| PostsPage.PostsPage.HandleUpdate | frontend/src/pages/PostsPage.js:125-142 | like create with PUT to the selected post and "Post updated successfully"; failure keeps the form and the posts; no selection ends in the failure toast; wherever no refetch happens the count and `loading` are kept, a failed refetch keeps the count, and every refetch ends with `loading` false; a refused or failed submission keeps the edit dialog flag, the form and the selection, a refused one also keeps `formLoading`, and no other dialog flag changes; a non-blank title ends with `formLoading` false |
| PostsPage.PostsPage.HandleDelete | frontend/src/pages/PostsPage.js:144-157 | DELETE of the selected post; success toasts "Post deleted successfully", closes, clears and refetches; failure toasts and keeps the selection and the list; wherever no refetch happens the count and `loading` are kept, a failed refetch keeps the count, and every refetch ends with `loading` false; no selection or a failure keeps the delete dialog flag and the selection |
| PostsPage.PostsPage.TogglePublish | frontend/src/pages/PostsPage.js:159-167 | the flipped flag is sent; success toasts "Post unpublished" for a published post and "Post published" otherwise, then refetches; failure toasts and keeps the list; wherever no refetch happens the count and `loading` are kept, a failed refetch keeps the count, and every refetch ends with `loading` false |
| PostsPage.PostsPage.OpenEdit | frontend/src/pages/PostsPage.js:169-178 | the edit dialog selects the post and fills the form from it; nothing else changes |
| PostsPage.PostsPage.OpenDelete | frontend/src/pages/PostsPage.js:180-183 | the delete dialog selects the post; nothing else changes |
| RegisterPage.FullNameRule | frontend/src/pages/RegisterPage.js:28-29 | the name passes exactly with two characters; "required" exactly when empty |
| RegisterPage.PasswordRule | frontend/src/pages/RegisterPage.js:34-36 | the password passes exactly with 8 characters and a letter and digit on one line; "too short" exactly for 1..7 characters |
| RegisterPage.ConfirmRule | frontend/src/pages/RegisterPage.js:38-39 | the confirmation passes exactly when it is given and equals the password |
| RegisterPage.Rules | frontend/src/pages/RegisterPage.js:26-40 | the four rules name four different fields |
| RegisterPage.ValidIff | frontend/src/pages/RegisterPage.js:41-42 | the form is valid exactly when all four rules pass |
| RegisterPage.ErrorEntries | frontend/src/pages/RegisterPage.js:26-40 | each field is in the error object exactly when its rule failed, with that rule's message |
| RegisterPage.ClientRulesImplyServerRules | frontend/src/pages/RegisterPage.js:26-42 | a form the page accepts (with an e-mail the server also accepts) passes the server's sign-up schema |
| RegisterPage.ServerAcceptsWhatClientRejects | frontend/src/pages/RegisterPage.js:36 | a password with its letter and digit on different lines is accepted by the server and refused by the page |
| RegisterPage.FailureMessage | frontend/src/pages/RegisterPage.js:58-73 | a list detail is shown as its messages joined by `. `, an object as its JSON, a string as is; without a detail the error's message or the default |
| RegisterPage.StringDetailShown | frontend/src/pages/RegisterPage.js:58-73 | a non-empty string detail is shown as it is |
| RegisterPage.SingleValidationErrorShown | frontend/src/pages/RegisterPage.js:63-65 | a single validation error is shown as its message |
| RegisterPage.RegisterPage.constructor | frontend/src/pages/RegisterPage.js:14-20 | the form starts empty, not loading, with no errors |
| RegisterPage.RegisterPage.Edit | frontend/src/pages/RegisterPage.js:14-17 | editing sets the four fields and nothing else |
| RegisterPage.RegisterPage.Validate | frontend/src/pages/RegisterPage.js:26-43 | the error object becomes the four rules recorded in order; only the error object changes; valid exactly when it is empty |
| RegisterPage.RegisterPage.HandleSubmit | frontend/src/pages/RegisterPage.js:45-79 | an invalid form sends nothing; a valid one calls `register` once; success goes to the dashboard, failure shows the chosen message |
| RegisterPage.RegisterPage.Send | frontend/src/pages/RegisterPage.js:48-78 | the valid-form half: exactly one `register` call is logged; success toasts and goes to the dashboard with no errors; failure toasts the chosen message and stores it as `errors.submit`; loading ends false |
| LoginPage.PasswordRule | frontend/src/pages/LoginPage.js:28-29 | the password passes exactly with 6 characters |
| LoginPage.Rules | frontend/src/pages/LoginPage.js:26-29 | the two rules name two different fields |
| LoginPage.ValidIff | frontend/src/pages/LoginPage.js:30-31 | the form is valid exactly for a well-formed e-mail and a 6-character password |
| LoginPage.SignUpCredentialsPass | frontend/src/pages/LoginPage.js:26-29 | credentials the sign-up page accepts also pass the login rules |
| LoginPage.FailureMessage | frontend/src/pages/LoginPage.js:44 | a truthy detail is shown as it is, otherwise the default message |
| LoginPage.LoginPage.constructor | frontend/src/pages/LoginPage.js:14-18 | the form starts empty with no errors |
| LoginPage.LoginPage.Edit | frontend/src/pages/LoginPage.js:14-15 | editing sets the two fields and nothing else |
| LoginPage.LoginPage.Validate | frontend/src/pages/LoginPage.js:24-32 | the errors are replaced by the rules' verdict; valid exactly when there are none |
| LoginPage.LoginPage.HandleSubmit | frontend/src/pages/LoginPage.js:34-50 | an invalid form sends nothing; a valid one calls `login` once; success goes to the dashboard, failure shows the detail or the default |
| ProfilePage.AvatarUrl | frontend/src/pages/ProfilePage.js:28-34 | no image for a missing or empty URL; an `/uploads` path is put behind the backend URL; any other URL is used as it is |
| ProfilePage.UploadedAvatarServedByBackend | frontend/src/pages/ProfilePage.js:28-34 | the URL the upload route stores is shown from the backend |
| ProfilePage.ForeignAvatarUnchanged | frontend/src/pages/ProfilePage.js:28-34 | an absolute URL is shown unchanged |
| ProfilePage.NameRule | frontend/src/pages/ProfilePage.js:36-42 | the name passes exactly when not blank and two characters long; "required" exactly when blank |
| ProfilePage.Rules | frontend/src/pages/ProfilePage.js:36-42 | one rule, on `full_name` |
| ProfilePage.ValidIff | frontend/src/pages/ProfilePage.js:36-42 | the profile form is valid exactly for a non-blank name of two characters |
| ProfilePage.SpacesPassSignUpOnly | frontend/src/pages/ProfilePage.js:38 | a name of two spaces passes the sign-up rule but not this one |
| ProfilePage.OrEmpty | frontend/src/pages/ProfilePage.js:20-23 | a missing value starts the form empty, a present one as it is |
| ProfilePage.FileProblem | frontend/src/pages/ProfilePage.js:63-74 | a file passes exactly at most 5 MB and of an allowed type; the size is checked first |
| ProfilePage.ClientChecksMatchServer | frontend/src/pages/ProfilePage.js:63-74 | the page lets a file through exactly when the upload route's type and size checks accept it |
| ProfilePage.UploadFailureMessage | frontend/src/pages/ProfilePage.js:89 | the server's truthy detail, otherwise "Failed to upload avatar" |
| ProfilePage.ProfilePage.constructor | frontend/src/pages/ProfilePage.js:20-23 | the form starts from the user's name and bio, or empty |
| ProfilePage.ProfilePage.Edit | frontend/src/pages/ProfilePage.js:20-23 | editing sets name and bio and nothing else |
| ProfilePage.ProfilePage.Validate | frontend/src/pages/ProfilePage.js:36-42 | the errors are replaced by the rule's verdict; valid exactly when there is none |
| ProfilePage.ProfilePage.HandleSubmit | frontend/src/pages/ProfilePage.js:44-57 | a valid form sends name and bio in one update and each outcome toasts, ending with loading off; an invalid form sends nothing and leaves loading as it was |
| ProfilePage.ProfilePage.HandleAvatarUpload | frontend/src/pages/ProfilePage.js:59-93 | no file does nothing; a refused file toasts without a request; otherwise the upload, then a refetch; either failure toasts the server's detail |
| ActivityPage.EntityParam | frontend/src/pages/ActivityPage.js:53 | no `entity_type` parameter exactly for the filter `all`, otherwise the filter itself |
| ActivityPage.QueryCarriesParam | frontend/src/pages/ActivityPage.js:49-63 | the query string sent carries exactly that parameter |
| ActivityPage.AllListsEverything | frontend/src/pages/ActivityPage.js:53 | with `all` the feed lists every activity of the user |
| ActivityPage.FilterSelectsEntity | frontend/src/pages/ActivityPage.js:53 | with any other filter the feed lists exactly the user's activities of that entity type |
| ActivityPage.AccountFilterLeavesOutProfileEdits | frontend/src/pages/ActivityPage.js:53 | the Account filter (`user`) never lists the profile edits, which are logged as `profile` |
| ActivityPage.Template | frontend/src/pages/ActivityPage.js:65-81 | a text exists exactly for the seven known actions and is never empty |
| ActivityPage.Lead | frontend/src/pages/ActivityPage.js:65-81 | the known text, or the action itself for an unknown action |
| ActivityPage.ActionText | frontend/src/pages/ActivityPage.js:65-81 | the text starts with the lead; the title is added, quoted, only for entity actions with a title |
| ActivityPage.TitleReadBack | frontend/src/pages/ActivityPage.js:65-81 | the title can be read back out of the text between its quotes |
| ActivityPage.AccountTextIgnoresTitle | frontend/src/pages/ActivityPage.js:65-81 | login and sign-up read "Logged in" and "Created account" whatever the title |
| ActivityPage.UnknownActionShownAsIs | frontend/src/pages/ActivityPage.js:65-81 | an unknown action is shown by its own name |
| ActivityPage.ActionIcon | frontend/src/pages/ActivityPage.js:139 | the action's icon, `Plus` for an unknown action |
| ActivityPage.EntityIcon | frontend/src/pages/ActivityPage.js:140 | the entity's icon, `FileText` for an unknown type |
| ActivityPage.ActionColor | frontend/src/pages/ActivityPage.js:141 | the action's colour, the grey default for an unknown action |
| ActivityPage.TablesAgree | frontend/src/pages/ActivityPage.js:14-40 | the icon and colour tables know exactly the actions that have a text |
| ActivityPage.DaysFacts | frontend/src/pages/ActivityPage.js:84-89 | the day headings are distinct and are exactly the days of the activities |
| ActivityPage.GroupByDay | frontend/src/pages/ActivityPage.js:84-89 | the grouping has one bucket per day, in first-seen order, holding that day's activities in feed order |
| ActivityPage.OccurrencesDistinct | frontend/src/pages/ActivityPage.js:84-89 | a distinct day list names a day at most once |
| ActivityPage.BucketSizesSnoc | frontend/src/pages/ActivityPage.js:84-89 | one more activity grows the bucket sizes by one for its day |
| ActivityPage.BucketsPartition | frontend/src/pages/ActivityPage.js:84-89 | the buckets together hold every activity exactly once |
| ActivityPage.BucketMembers | frontend/src/pages/ActivityPage.js:84-89 | a day's bucket holds exactly the activities of that day |
| ActivityPage.ActivityPage.constructor | frontend/src/pages/ActivityPage.js:45-47 | the page starts loading with the filter `all` |
| ActivityPage.ActivityPage.Fetch | frontend/src/pages/ActivityPage.js:49-63 | one GET `/activities` with the filter's query; success replaces the feed, failure keeps it and toasts |
| DashboardLayout.IsActive | frontend/src/pages/DashboardLayout.js:50-53 | the overview entry is active only on its own path, every other entry on any path starting with it |
| DashboardLayout.OverviewNotActiveOnSubpages | frontend/src/pages/DashboardLayout.js:50-53 | below the dashboard the overview entry is never active |
| DashboardLayout.PrefixesNest | frontend/src/pages/DashboardLayout.js:50-53 | a path starting with two prefixes has the shorter as a prefix of the longer |
| DashboardLayout.NavPathsIndependent | frontend/src/pages/DashboardLayout.js:25-32 | no entry path other than the overview starts with another |
| DashboardLayout.AtMostOneActive | frontend/src/pages/DashboardLayout.js:25-53 | whatever the path, at most one entry is highlighted |
| DashboardLayout.NoSegmentBoundary | frontend/src/pages/DashboardLayout.js:50-53 | a path that merely starts like an entry (`/dashboard/tasksX`) still highlights it |
| DashboardLayout.AvatarSrc | frontend/src/pages/DashboardLayout.js:196 | the header image follows the same rule as the profile page |
| DashboardLayout.SameAvatarAsProfile | frontend/src/pages/DashboardLayout.js:196 | header and profile page show the same image for the same user |
| DashboardLayout.Initial | frontend/src/pages/DashboardLayout.js:202 | one letter: the upper-cased first character of the name, or `U` |
| AuthRoutes.Register | backend/routes/auth.py:31-54 | sign-up fails exactly for an e-mail in use; otherwise one new user and one `registered` entry; e-mails stay unique |
| AuthRoutes.Login | backend/routes/auth.py:56-72 | login succeeds exactly for the account with the e-mail whose hash matches, logging `logged_in`; any failure is the same error |
| AuthRoutes.UpdateProfile | backend/routes/auth.py:87-107 | the given fields replace the user's, the others stay; one `updated profile` entry |
| AuthRoutes.StripTrailingSlashes | backend/routes/auth.py:131 | the result does not end in `/` |
| AuthRoutes.AfterLastSlash | backend/routes/auth.py:131 | the result holds no `/` |
| AuthRoutes.BaseName | backend/routes/auth.py:131 | a path's name holds no `/` |
| AuthRoutes.LastDot | backend/routes/auth.py:131 | the last `.`, and none exactly when there is no dot |
| AuthRoutes.Suffix | backend/routes/auth.py:131 | a suffix is empty or one dot followed by dot-free text |
| AuthRoutes.LStripDots | backend/routes/auth.py:131 | the result does not start with `.` |
| AuthRoutes.Extension | backend/routes/auth.py:130-133 | the stored extension is always one of the image extensions, without `/` or `.` |
| AuthRoutes.ExtensionKept | backend/routes/auth.py:130-133 | a name ending in an image extension keeps it, lower-cased, whatever its directories |
| AuthRoutes.SuffixOfPlainName | backend/routes/auth.py:131 | the suffix of `dir/stem.ext` is `.ext` |
| AuthRoutes.AfterLastSlashOf | backend/routes/auth.py:131 | the name after a directory prefix is the name itself |
| AuthRoutes.LastDotOf | backend/routes/auth.py:131 | the last dot of `stem.ext` is the one before `ext` |
| AuthRoutes.StoredNameIsOneComponent | backend/routes/auth.py:135-143 | a stored name built from slash-free parts has no `/`, so the directory guard never fires |
| AuthRoutes.StoredName | backend/routes/auth.py:135 | `f"{user_id}_{token}.{ext}"`; specified by StoredNameIsOneComponent |
| AuthRoutes.OldUpload | backend/routes/auth.py:145-149 | an old avatar under `/uploads/` names the file to remove, without its leading `/`; any other names none |
| AuthRoutes.ForeignAvatarKept | backend/routes/auth.py:145-149 | an external avatar URL never causes a removal |
| AuthRoutes.UploadAvatar | backend/routes/auth.py:109-162 | the type is checked first, then the size, then the name; success points the avatar at the new file, names the old upload for removal and logs it; failure changes nothing |
| AuthRoutes.OtherExtensionReplaced | backend/routes/auth.py:130-133 | any other extension becomes `jpg` |
| AuthRoutes.HiddenFileHasNoExtension | backend/routes/auth.py:130-133 | a hidden file's leading dot is not a suffix: `.png` is stored as `jpg` |
| TaskRoutes.ParseFilter | backend/routes/tasks.py:17-29 | the query parameters are accepted exactly for known enum values and paging in bounds; a refusal is a 422 |
| TaskRoutes.ListTasks | backend/routes/tasks.py:17-53 | a bad enum or paging value is a 422; otherwise the page is exactly the `OFFSET`/`LIMIT` window of the matching tasks ordered by position then newest, with the count of all matches; its rows match, come in that order, none twice |
| TaskRoutes.GetTask | backend/routes/tasks.py:99-112 | a task is found exactly when it exists and is the user's; otherwise 404 |
| TaskRoutes.MaxPosition | backend/routes/tasks.py:62-65 | the highest position among the user's tasks, or 0 when there is none |
| TaskRoutes.CreateTask | backend/routes/tasks.py:55-97 | the new task goes after every task of its owner (1 for a first task), keeps only the owner's tags, and is logged |
| TaskRoutes.UpdateAction | backend/routes/tasks.py:157-161 | an update is logged as `completed` exactly when the status changed into `completed`, otherwise as `updated` |
| TaskRoutes.NoCompletionWithoutChange | backend/routes/tasks.py:157-161 | leaving the status alone, or saving a completed task, logs an ordinary update |
| TaskRoutes.CompletionLogged | backend/routes/tasks.py:157-161 | moving a task into `completed` logs a completion |
| TaskRoutes.PatchTask | backend/routes/tasks.py:129-150 | the given fields replace the task's, the others stay, a tag list replaces the tags with the owned ones, and the task is stamped |
| TaskRoutes.UpdateTask | backend/routes/tasks.py:114-163 | another user's or a missing task is a 404 and changes nothing; otherwise the patch is stored and logged |
| TaskRoutes.LastIndex | backend/routes/tasks.py:172 | the index a `{id: index}` dict keeps for a repeated id: its last occurrence |
| TaskRoutes.ReorderedFacts | backend/routes/tasks.py:165-182 | after a reorder each listed task of the user has its last index as position and `now` as update time, and every other task is untouched |
| TaskRoutes.Reordered | backend/routes/tasks.py:172-179 | the task table after the `CASE` update; specified by ReorderedFacts and DistinctIdsGetTheirIndex |
| TaskRoutes.DistinctIdsGetTheirIndex | backend/routes/tasks.py:165-182 | with each id listed once, a task's position is its index |
| TaskRoutes.EmptyReorderChangesNothing | backend/routes/tasks.py:165-182 | an empty list changes nothing |
| TaskRoutes.LastIndexSnoc | backend/routes/tasks.py:172 | another id added at the end does not move an id's last index |
| TaskRoutes.ReorderStep | backend/routes/tasks.py:172-178 | one step of the loop extends the reordered list by one id |
| TaskRoutes.ReorderTasks | backend/routes/tasks.py:165-182 | the `CASE` update leaves the tasks reordered by the list, each moved task stamped `now`, and touches nothing else |
| TaskRoutes.DeleteTask | backend/routes/tasks.py:184-202 | another user's or a missing task is a 404; otherwise the task is removed and the deletion logged |
| NoteRoutes.ListNotes | backend/routes/notes.py:17-52 | bad paging is a 422; otherwise the page is exactly the window of the matching notes ordered pinned first then newest, with the count of all matches; its rows match, come in that order, none twice |
| NoteRoutes.GetNote | backend/routes/notes.py:91-104 | a note is found exactly when it exists and is the user's; otherwise 404 |
| NoteRoutes.CreateNote | backend/routes/notes.py:54-89 | the new note keeps the payload, defaults a `null` colour and pin flag, keeps only owned tags, and is logged |
| NoteRoutes.TitleOnlyNote | backend/routes/notes.py:54-89 | a note created from a title alone is unpinned, `default` coloured and untagged |
| NoteRoutes.PatchNote | backend/routes/notes.py:121-140 | the given fields replace the note's, the others stay, and the note is stamped |
| NoteRoutes.PinToggle | backend/routes/notes.py:127-128 | a pin-only update changes nothing but the flag and the stamp |
| NoteRoutes.UpdateNote | backend/routes/notes.py:106-146 | a 404 changes nothing; otherwise the patch is stored and logged |
| NoteRoutes.DeleteNote | backend/routes/notes.py:148-166 | a 404 changes nothing; otherwise the note is removed and logged |
| PostRoutes.ListPosts | backend/routes/posts.py:17-48 | bad paging is a 422; otherwise the page is exactly the window of the matching posts ordered newest first, with the count of all matches; its rows match, come in that order, none twice |
| PostRoutes.GetPost | backend/routes/posts.py:89-102 | a post is found exactly when it exists and is the user's; otherwise 404 |
| PostRoutes.CreateAction | backend/routes/posts.py:84-85 | a new post is logged as `published` or `created` |
| PostRoutes.CreatePost | backend/routes/posts.py:50-87 | a post created published is stamped and logged as published; a draft has no publication date |
| PostRoutes.PatchPost | backend/routes/posts.py:119-140 | the given fields replace, the others stay; publishing stamps only a post never published before |
| PostRoutes.UpdateAction | backend/routes/posts.py:143-147 | an update is logged as `published` exactly when an unpublished post becomes published, otherwise as `updated` |
| PostRoutes.FirstPublicationDateKept | backend/routes/posts.py:127-128 | a post once published keeps its first publication date |
| PostRoutes.PublishingDraft | backend/routes/posts.py:127-145 | publishing a never-published draft stamps it and logs a publication |
| PostRoutes.Unpublishing | backend/routes/posts.py:125-147 | unpublishing keeps the old date and logs an ordinary update |
| PostRoutes.UpdatePost | backend/routes/posts.py:104-150 | a 404 changes nothing; otherwise the patch is stored and logged |
| PostRoutes.DeletePost | backend/routes/posts.py:152-169 | a 404 changes nothing; otherwise the post is removed and logged |
| TagRoutes.ListTags | backend/routes/tags.py:15-24 | exactly the user's tags, each once |
| TagRoutes.StoredColor | backend/routes/tags.py:45 | a null or empty colour falls back to `#6366f1`; a given one is kept |
| TagRoutes.OmittedColorIsDefault | backend/routes/tags.py:45 | an omitted colour is already `default`, so the fallback applies only to `null` or `""` |
| TagRoutes.CreateTag | backend/routes/tags.py:26-50 | a name the user already has is refused; otherwise the tag is stored; names stay unique per user |
| TagRoutes.UpdateTag | backend/routes/tags.py:52-83 | a 404 for another user's tag; a new name must not be another tag's; the colour is replaced when given; names stay unique |
| TagRoutes.TasksWithout | backend/models.py:26-30 | the cascade removes the tag from every task's tag set and changes nothing else |
| TagRoutes.NotesWithout | backend/models.py:33-37 | the same for notes |
| TagRoutes.PostsWithout | backend/models.py:40-44 | the same for posts |
| TagRoutes.DeleteTag | backend/routes/tags.py:85-100 | a 404 changes nothing; otherwise the tag and its links go |
| TagRoutes.CascadeFacts | backend/routes/tags.py:85-100 | after the cascade nothing refers to the tag and every other link stays |
| DataRoutes.Indices | backend/routes/data.py:29-36 | the row positions of the log, in order |
| DataRoutes.IndicesDistinct | backend/routes/data.py:29-36 | no position twice |
| DataRoutes.Pick | backend/routes/data.py:36 | the activities at the chosen positions, in order |
| DataRoutes.ActivityRows | backend/routes/data.py:29-36 | the feed positions are listed activities of the user and type, newest first, none twice, `limit` of them unless fewer match |
| DataRoutes.GetActivities | backend/routes/data.py:21-36 | a limit above 100 is a 422 and a negative one a server error; otherwise exactly the first `limit` of the user's activities of the type, newest first |
| DataRoutes.Feed | backend/routes/data.py:29-36 | the activity rows the query returns; specified by ActivityRows |
| DataRoutes.CountOn | backend/routes/data.py:86-89 | a day's count never exceeds the number of events |
| DataRoutes.Times | backend/routes/data.py:74-85 | the times of the user's matching activities, no more than the log holds |
| DataRoutes.DaySeries | backend/routes/data.py:86-121 | one entry per day of the window, consecutive, ending today, each with that day's count |
| DataRoutes.SeriesConsecutive | backend/routes/data.py:86-89 | consecutive entries are one day apart |
| DataRoutes.CountsBy | backend/routes/data.py:50-72 | a `GROUP BY` count: a key exactly for each value present, with its multiplicity |
| DataRoutes.CountAtMostSize | backend/routes/data.py:50-72 | no group exceeds the row count |
| DataRoutes.QuotientBelow | backend/routes/data.py:124-126 | a quotient below the bound when the dividend is |
| DataRoutes.Score | backend/routes/data.py:124-126 | the score is at most 100, 0 with no tasks, 100 exactly when all are completed, below 100 otherwise |
| DataRoutes.ScoreFacts | backend/routes/data.py:124-126 | the same bounds for the division written with `max(total, 1)` |
| DataRoutes.Productivity | backend/routes/data.py:124-126 | the score of a status list: at most 100, 0 for no tasks, 100 when all are completed |
| DataRoutes.AllSame | backend/routes/data.py:124-126 | a list of one value counts that value as often as its length |
| DataRoutes.Cutoff | backend/routes/data.py:47 | the window is the smaller of `days` and 14 |
| DataRoutes.ActivitySeries | backend/routes/data.py:78-121 | the three series (completions, publications, all activity) over the same window of `Cutoff(days)` days ending on the day of `now` |
| DataRoutes.GetAnalytics | backend/routes/data.py:40-136 | more than 365 days is a 422; otherwise the window is at most 14 days, the groups count the user's rows, the score is bounded |
| DataRoutes.TagNames | backend/routes/data.py:161 | every name is that of a tag in the set, and every scanned tag of the set gives its name; no more names than tags scanned (exactness in TagNamesOfKept and TagNamesOnePerTag) |
| DataRoutes.TagNamesOfKept | backend/routes/data.py:161 | the k-th name is the name of the k-th scanned tag that is in the set and exists, and there are exactly as many names as such tags |
| DataRoutes.TagNamesOnePerTag | backend/routes/data.py:161 | over a tag scan listing each tag once, the number of names equals the number of the set's tags: each tag gives exactly one name |
| DataRoutes.TaskRecords | backend/routes/data.py:149-164 | exactly one record per task of the user, carrying its fields and tag names, and no other record |
| DataRoutes.NoteRecords | backend/routes/data.py:166-180 | exactly one record per note of the user, carrying its fields and tag names, and no other record |
| DataRoutes.PostRecords | backend/routes/data.py:182-196 | exactly one record per post of the user, carrying its fields and tag names, and no other record |
| DataRoutes.RecordsFacts | backend/routes/data.py:154-164 | over a scan listing each row once, a list comprehension gives one record per selected row and none for any other |
| DataRoutes.Records | backend/routes/data.py:154-164 | a list comprehension over the selected rows of a scan; specified by RecordsFacts |
| DataRoutes.SectionNames | backend/routes/data.py:149-182 | a section per entity type the request names, `all` giving tasks, notes and posts in that order; nothing else |
| DataRoutes.UnknownTypeExportsNothing | backend/routes/data.py:149-182 | an unknown entity type exports no section |
| DataRoutes.SectionsFor | backend/routes/data.py:147-196 | one section per name, in order, holding that type's records |
| DataRoutes.Flatten | backend/routes/data.py:212 | a tag list is written as names joined by `, `; any other cell passes through |
| DataRoutes.FlattenRow | backend/routes/data.py:212 | every cell of a row is flattened, in order |
| DataRoutes.Header | backend/routes/data.py:209 | the header is the first row's field names, in order |
| DataRoutes.WriteCsv | backend/routes/data.py:204-213 | the CSV writer emits one block per non-empty section, in order |
| DataRoutes.CsvBlocksFacts | backend/routes/data.py:204-213 | the CSV has no empty block, no list cell, headers as wide as the rows, and a block for every non-empty section |
| DataRoutes.ExportData | backend/routes/data.py:140-219 | over scans that list each table's rows once, `json` gives the sections as they are and any other format gives their CSV blocks |
| DataRoutes.TaskCounts | backend/routes/data.py:229-236 | the three counts over the task scan are the numbers of the user's tasks, of those completed and of those in progress |
| DataRoutes.RowCount | backend/routes/data.py:229-236 | `func.count` over the rows a condition selects; TaskCounts, NoteCounts, PostCounts and TagCount prove it equal to the size of the selected set |
| DataRoutes.NoteCounts | backend/routes/data.py:238-244 | the two counts over the note scan are the numbers of the user's notes and of those pinned |
| DataRoutes.PostCounts | backend/routes/data.py:246-252 | the two counts over the post scan are the numbers of the user's posts and of those published |
| DataRoutes.TagCount | backend/routes/data.py:254-257 | the count over the tag scan is the number of the user's tags |
| DataRoutes.DashboardStats | backend/routes/data.py:223-276 | over scans that list each table's rows once, each reported count is the number of the user's rows its `FILTER` selects: all, completed and in-progress tasks, all and pinned notes, all and published posts, and tags |
| DataRoutes.StatsBounded | backend/routes/data.py:229-246 | completed plus in-progress never exceed the tasks, pinned the notes, published the posts |
| DataRoutes.SubsetCard | backend/routes/data.py:223-276 | a subset is no larger than its set |

## Left out

- HTTP itself: status codes are the `HttpError` constructors, request bodies are already-parsed values, and FastAPI's 422 error body is not modelled.
- `ILIKE` matching: the database's case-insensitive pattern match is a `Matcher` parameter of the list routes. The escaping that feeds it is modelled and proved.
- Debounce timers, React renders and concurrent or stale responses. Each network call's outcome is a method parameter, and one call completes before the next starts.
- `parseInt` on a header with a sign or no leading digits: NaN is read as 0, and a sign is not modelled. The backend only writes non-negative decimal counts.
- Dates, time zones and `isoformat`: times are integer seconds, a day is `t / 86400` (UTC), and the client's day key for grouping the feed is a `dayOf` parameter.
- JavaScript string length counts UTF-16 code units; here a string is a sequence of characters. Case mapping, `isalpha`, `isdigit` and `toUpperCase` are ASCII-only.
- The file system: writing and removing the avatar file, and `resolve()`. The directory guard is modelled as a `/` in the stored name, and `.`/`..` path components are not modelled.
- Password hashing and JWTs: the hash check is a `verify` parameter, and the token's subject is the user id. The refresh-token and get-profile routes and rate limiting are not part of this model.
- The `EmailStr` syntax check: its verdict is an `emailValid` parameter.
- AuthRoutes.Register: the e-mail is stored as sent. Pydantic's `EmailStr` lower-cases the domain part before the handler sees it, and that normalisation is not modelled.
- AuthRoutes.Login: the e-mail is looked up as sent, without the `EmailStr` domain normalisation, for the same reason.
- NoteRoutes.ListNotes: `is_pinned` arrives as an already-parsed boolean. FastAPI's parsing of the query text (`true`, `1`, `yes` and the like, and a 422 for other text) is not modelled.
- PostRoutes.ListPosts: `is_published` arrives as an already-parsed boolean, as for the notes.
- DataRoutes.DashboardStats: the `or 0` fallbacks are left out, since SQL `COUNT` never yields `NULL` and the fallback never applies.
- AuthRoutes.Register: a fresh id is a precondition (`newId !in db.users`). The uuid generator is not part of this model. The same holds for the new ids of tasks, notes, posts and tags.
- TagRoutes.ListTags: states the set of tags and no repeats, but not the `ORDER BY name` order. String collation is not modelled.
- DataRoutes.TagNames: the names come in tag-scan order, not in the order of the relationship collection.
- A `tag_ids` list that repeats an id: the tags are a set, so a repeat counts once.
- DataRoutes.Score: the score is modelled as the exact floor of `completed * 100 / max(total, 1)`. The source computes `int((completed / total) * 100)` in floating point, which can come out one lower (29 of 100 gives a product just under 29). Only the bounds are claimed for it.
- TasksPage.TasksPage.HandleDragEnd: requires both ids to be on the current page, which is what the drag-and-drop library passes. A drop outside the list (`overId == None`) changes nothing; in the source it throws on `over.id` before any request, with the same visible state.
- CSV quoting and escaping of the `csv` module. The CSV is modelled as blocks of title, header and rows.
- DataRoutes.GetAnalytics: the `GROUP BY` results are stated through their row counts, not as sorted tuples.
- Store.Database.LogActivity: the `try/except` that swallows a failed flush is not modelled. The log always succeeds.
- Transaction commits: database sessions, flushes and commits are not modelled.
- Prototype keys: JavaScript object lookups by names like `constructor` in the action and icon tables are not modelled, and the tables are Dafny maps.
- Toast rendering, the skeleton and empty states, dialogs' open animations, and the "Member since" date on the profile page.
- The analytics, overview and landing pages, which only display what the routes return, are not part of this model.
