# Adaptavist client core in Dafny

This project models the request-building and control logic of the
`adaptavist` Python client for Adaptavist Test Management for Jira Server,
and proves properties of that model.

What is modelled:

- **Field reconciliation helpers** (`adaptavist/_helper.py`):
  - `update_field` merges a caller's list into an existing list. A leading
    `"-"` in the caller's list means "replace".
  - `update_multiline_field` rebuilds an HTML multiline custom field from the
    caller's entries.
  - `build_folder_names` flattens a folder tree into slash-separated paths.
  - `raise_on_kwargs_not_empty` rejects unknown keyword arguments.
- **The `Adaptavist` client** (`adaptavist/adaptavist.py`), as the class
  `Client.Adaptavist`. It sends every request through one transport and
  records each request with its answer in a `log`.
  - The remote is a script of answers consumed in order. `None` stands for a
    failed request, and once the script is exhausted every request fails.
  - Each operation is specified by a predicate over the exchanges it
    appended to the log. That predicate fixes the requests sent (verb,
    resource, body), their order, and the value returned.

The model is built in layers:

- `Json` — a JSON-like `Value` type, plus Python's `dict.get`, `or` and
  truthiness.
- `PyStr` — Python's substring test `in`, `str.replace` (left to right,
  non-overlapping) and `str.join`.
- `Remote` — requests and exchanges.
- `Sorting` — a stable insertion sort, standing in for `sorted(..., key=...)`.
- `Helper` — the `_helper.py` functions.
- `Folders` — folder-path normalisation `f"/{x}".replace("//", "/")`, and the
  request sequence of `create_folder`.
- `Paging` — the `startAt` pagination loops.
- `Links` — `link_test_cases` and `unlink_test_cases`.
- `Creating` — the `create_*` request bodies.
- `Editing` — the bodies of `edit_test_case` and `edit_test_plan`.
- `Results` — the test-result operations.
- `Client` — the class itself.

Where the project documentation and the code disagree, the model follows the
code:

- **Unconditional PUT.** `edit_test_case` and `edit_test_plan` PUT even when
  nothing changed (`Client.EditOutcome`).
- **`update_multiline_field` does not carry old content over.** It writes only
  the caller's entries that are not already substrings of the base.
  - An empty edit therefore clears a non-empty field
    (`Editing.EmptyEditClearsBuildUrls`).
  - Re-adding a present entry also clears the field
    (`Helper.ReaddingPresentEntryClears`).
- **Merging an unchanged list appends the marker.** `update_field` with
  `["-"] + current` falls through to the merge branch and appends `"-"` itself
  (`Helper.ReplaceBySameListAppendsDash`).
- **Normalisation is not idempotent.** `create_folder` normalises a name that
  `edit_test_case` already normalised. On names with three slashes the
  second pass changes the name again: `"a///b"` becomes `"/a//b"`, then
  `"/a/b"` (`Folders.FolderPathNotIdempotent`). On names without a doubled
  slash it is idempotent (`Folders.FolderPathIdempotent`).
- **`edit_test_plan` uses the test-case folder tree.** It creates its folder
  with type `TEST_CASE` (adaptavist/adaptavist.py:471). The model does the
  same: `Client.Adaptavist.EditTestPlan` passes `TestCaseFolders`.
- **`edit_test_script_status` does not resolve `None`.** A `None` assignee or
  executor leaves the key out; it is not resolved to the current user as the
  docstring says. A `None` comment is written into the step as `null`.
- **`edit_test_result_status` sends the environment as given.** An empty
  string is not turned into `null`.

The constants `PRIORITY_NORMAL` and `STATUS_NOT_EXECUTED` are imported by the
client but have no definition in `adaptavist/const.py`. They are therefore
parameters of the `Client.Adaptavist` constructor. The user that
`get_executor` would report is a constructor parameter as well
(`currentUser`).

## Model

| member | source | states |
|---|---|---|
| Helper.FolderNamesCount | adaptavist/_helper.py:16-28 | build_folder_names returns exactly one path per node of the tree; the first is the node's own path, parent and name joined by "/" with "//" collapsed |
| Helper.ChildrenNamesCount | adaptavist/_helper.py:25-26 | the children's outputs, concatenated in child order, hold one path per node of all the child subtrees |
| Helper.SlashCollapseRooted | adaptavist/_helper.py:19 | collapsing "//" in a path that starts with "/" leaves a path starting with "/" |
| Helper.FolderNamesRooted | adaptavist/_helper.py:16-28 | from the root (parent "") or under a rooted parent, every returned path starts with "/" |
| Helper.ChildrenNamesRooted | adaptavist/_helper.py:25-26 | every path the children produce under a rooted parent starts with "/" |
| Helper.CollapseSingleSlashes | adaptavist/_helper.py:19 | replace("//", "/") leaves a string without a doubled slash unchanged |
| Helper.CollapseStep | adaptavist/_helper.py:19 | replace("//", "/") scans left to right: a leading "//" becomes "/" and the scan resumes after it; any other first character is kept |
| Helper.JoinedUnderRoot | adaptavist/_helper.py:19 | joining the root "/" with a name that has no doubled slash gives "/" followed by the name |
| Helper.RootAndOneFolder | adaptavist/_helper.py:16-28 | a root with an empty name and one child "Test folder" flattens to ["/", "/Test folder"] |
| Helper.RaiseOnKwargsNotEmpty | adaptavist/_helper.py:31-34 | an error is raised if and only if unknown keyword arguments remain, and it names them |
| Helper.RequestData.constructor | adaptavist/_helper.py:37 | the mutable request dictionary starts with exactly the given fields |
| Helper.ListOfSet | adaptavist/_helper.py:43 | list(set) yields a duplicate-free list whose elements are exactly the set's, in no fixed order |
| Helper.UpdateField | adaptavist/_helper.py:37-45 | replace mode (delta starts with "-" and delta[1:] differs from the current value, which a null never equals) writes delta[1:] exactly; otherwise current plus the new elements, each once, is written only if it differs from current; no other key changes |
| Helper.MergeOfTail | adaptavist/_helper.py:43-44 | current plus a duplicate-free list of set(delta) - set(current) is a merge, and it equals current exactly when there are no new elements |
| Helper.DistinctCount | adaptavist/_helper.py:43 | a duplicate-free list has as many elements as its set |
| Helper.MergeLength | adaptavist/_helper.py:43 | a merged list is as long as current plus the number of new elements |
| Helper.MergeMembers | adaptavist/_helper.py:43 | a merged list holds exactly the elements of current and of delta |
| Helper.MergeDistinct | adaptavist/_helper.py:43 | merging into a duplicate-free current list gives a duplicate-free list |
| Helper.MergeAgainWritesNothing | adaptavist/_helper.py:37-45 | merging the same delta (no "-" marker) into an already merged list writes nothing: the merge is idempotent |
| Helper.EmptyDeltaWritesNothing | adaptavist/_helper.py:39-45 | an empty delta leaves the request dictionary completely unchanged |
| Helper.ListFieldUpdateFrame | adaptavist/_helper.py:39-45 | only `key` may change, and it is written only with a list that differs from current |
| Helper.NonListReplaced | adaptavist/_helper.py:39-41 | a current value that is not a list (null) is replaced by the remainder of any delta starting with "-" |
| Helper.ReplaceBySameListAppendsDash | adaptavist/_helper.py:39-45 | ["-"] + current is not a replacement; it falls through to the merge, which appends "-" to current |
| Helper.Kept | adaptavist/_helper.py:53 | the kept entries are the non-empty delta entries that are not substrings of the base, each kept as often as it occurs in the delta |
| Helper.KeptAgainstEmpty | adaptavist/_helper.py:50-53 | against the empty base of replace mode, exactly the non-empty entries are kept, in order |
| Helper.ReplacementJoinsNonEmpty | adaptavist/_helper.py:50-53 | in replace mode the written value is the "<br>"-join of the non-empty entries of delta[1:] |
| Helper.ReaddingPresentEntryClears | adaptavist/_helper.py:50-55 | adding an entry already contained in the current content yields "", so the field is cleared |
| Helper.RepeatedEntriesKept | adaptavist/_helper.py:53 | repeated delta entries are not deduplicated against each other |
| Helper.UpdateMultilineField | adaptavist/_helper.py:48-55 | writes customFields[key] (other custom fields kept) with the kept entries joined by "<br>", only when that text differs from the current content; a current content that is not text (null) always differs; otherwise the request is unchanged |
| Json.FieldValues | adaptavist/adaptavist.py:51 | `[x[field] for x in xs]`: one value per element, in order |
| PyStr.ContainsIffOccurs | adaptavist/_helper.py:53 | the substring test holds if and only if the needle occurs at some index |
| PyStr.ContainsWitness | adaptavist/_helper.py:53 | a contained needle occurs at an index that can be exhibited |
| PyStr.OccursContained | adaptavist/_helper.py:53 | an occurrence at any index makes the substring test hold |
| PyStr.EmptyContainment | adaptavist/_helper.py:53 | "" is in every string, and only "" is in "" |
| PyStr.ReplaceWithoutOccurrence | adaptavist/_helper.py:19 | replace leaves a string without an occurrence of the pattern unchanged |
| Sorting.InsertSorted | adaptavist/adaptavist.py:691 | inserting into a sorted list keeps it sorted by the key |
| Sorting.InsertPermutes | adaptavist/adaptavist.py:691 | insertion adds exactly the one element |
| Sorting.SortBy | adaptavist/adaptavist.py:691 | the result is sorted by the key and is a permutation of the input |
| Sorting.InsertWithKey | adaptavist/adaptavist.py:691 | among the elements with the inserted element's key, the inserted element comes first and the others keep their order; elements with other keys are unaffected |
| Sorting.SortByStable | adaptavist/adaptavist.py:691 | the sort is stable: the elements with any one key keep their relative order |
| Folders.FolderPathRooted | adaptavist/adaptavist.py:126 | a normalised folder name always starts with "/" |
| Folders.CollapseKeepsNonEmpty | adaptavist/adaptavist.py:126 | collapsing "//" never turns a non-empty string into "" |
| Folders.RootFolderNames | adaptavist/adaptavist.py:126-127 | a name normalises to the root "/" if and only if it is "" or "/" |
| Folders.RootFolderExamples | adaptavist/adaptavist.py:126 | "" and "/" both normalise to "/" |
| Folders.FolderPathOfSingleSlashes | adaptavist/adaptavist.py:191 | a name without a doubled slash is kept if it starts with "/", otherwise "/" is prepended; the result again has no doubled slash |
| Folders.FolderPathIdempotent | adaptavist/adaptavist.py:126 | on names without a doubled slash, normalising twice equals normalising once |
| Folders.NamedFolderExamples | adaptavist/adaptavist.py:270 | "Test folder" and "/Test folder" both normalise to "/Test folder" |
| Folders.FolderPathNotIdempotent | adaptavist/adaptavist.py:126 | normalisation is not idempotent: "a///b" gives "/a//b", and normalising that gives "/a/b" |
| Folders.FolderPathOfTripleSlash | adaptavist/adaptavist.py:126 | "a///b" normalises to "/a//b" |
| Folders.FolderPathOfDoubleSlash | adaptavist/adaptavist.py:126 | "/a//b" normalises to "/a/b" |
| Folders.ProjectSummaries | adaptavist/adaptavist.py:62 | one summary (id, key, name) per project, in order |
| Folders.ProjectId | adaptavist/adaptavist.py:107 | the id of the first project with the given key, or null when no project has it |
| Folders.FolderFoundCreation | adaptavist/adaptavist.py:127-128 | a non-root folder already in the listing is a complete creation that sends no POST and returns None |
| Folders.FolderPostedCreation | adaptavist/adaptavist.py:130-138 | a non-root folder missing from the listing is created by one POST of {projectKey, name, type}, and the result is the answer's "id" or None when it failed |
| Folders.ListingOnlyGets | adaptavist/adaptavist.py:99-115 | listing the folders sends only GET requests |
| Folders.FolderCreationSplit | adaptavist/adaptavist.py:117-138 | for a non-root name, create_folder sends the listing's GETs and then at most one POST |
| Folders.FolderCreationPostsOnlyNew | adaptavist/adaptavist.py:126-128 | a POST is sent if and only if the normalised name is not "/" and not among the listed folders; an id is returned only for a non-root name |
| Folders.FolderCreationSendsNoPut | adaptavist/adaptavist.py:117-138 | create_folder never sends a PUT |
| Paging.WalkedSnoc | adaptavist/adaptavist.py:162-170 | one more non-empty page, requested at the offset reached so far, extends the walk and advances the offset by its length |
| Paging.WalkedReference | adaptavist/adaptavist.py:160-172 | the items collected are the pages concatenated in order; the next offset is the start plus their count; the j-th request asks for the offset reached by the pages before it, and every such page is non-empty |
| Paging.PagedItemsDetermined | adaptavist/adaptavist.py:160-172 | the items of a whole walk are the concatenation of its non-empty pages, so the answers determine them |
| Paging.ThreePages | adaptavist/adaptavist.py:160-172 | pages [a, b], [c], [] are requested at offsets 0, 2 and 3, and the result is [a, b, c] |
| Paging.LastRunSummary | adaptavist/adaptavist.py:515 | {} when no run was found; otherwise exactly the key and name of the last run found |
| Paging.ExecutionRow | adaptavist/adaptavist.py:660-672 | every row has exactly the twelve report keys |
| Paging.KeptEntries | adaptavist/adaptavist.py:673 | the comprehension's filter keeps each entry whose lastTestResult is true (or absent), or every entry when not only last results are asked for, with its multiplicity; without lastOnly it is the whole report |
| Paging.ExecutionRows | adaptavist/adaptavist.py:660-673 | without lastOnly, row i is the row of entry i for every entry; at most one row per entry; every row has the report keys |
| Paging.RowsOfKeptEntries | adaptavist/adaptavist.py:660-673 | the rows are exactly the kept entries, in order, each made into its row |
| Paging.KeptAndSuperseded | adaptavist/adaptavist.py:673 | with lastOnly, the kept entries and the entries whose lastTestResult is false split the report between them (as multisets) |
| Paging.LastOnlyDropsSuperseded | adaptavist/adaptavist.py:673 | asking for last results only drops exactly the entries whose lastTestResult is false: one row fewer per such entry, and kept plus dropped is the whole report |
| Links.RemoveFirstCount | adaptavist/adaptavist.py:353 | removing a present issue takes exactly one copy of it away |
| Links.RemoveFirstAbsent | adaptavist/adaptavist.py:352-353 | removing an absent issue changes nothing |
| Links.RemoveFirstSplit | adaptavist/adaptavist.py:353 | only the first occurrence is removed; everything before and after it is kept in order |
| Links.UnlinkUndoesLink | adaptavist/adaptavist.py:343-360 | unlinking an issue that linking appended restores the previous links |
| Links.LinkedSnoc | adaptavist/adaptavist.py:316-333 | a successful step for one more test case extends a successful walk |
| Links.LinkedFail | adaptavist/adaptavist.py:330-331 | a failed PUT ends the walk with False, whatever keys remain |
| Links.PutsOfStep | adaptavist/adaptavist.py:324-331 | a step succeeds if and only if its PUT, when it sends one, got an answer; it PUTs only when the link list must change |
| Links.LinkedOutcome | adaptavist/adaptavist.py:316-333 | the result is True if and only if every PUT sent got an answer; each PUT directly follows the GET of the same test case, whose answer needed it |
| Links.SkipsMissingTestCase | adaptavist/adaptavist.py:317-320 | a test case that is not found is skipped and the walk goes on to the next key |
| Results.SortedResults | adaptavist/adaptavist.py:690-691 | each result keeps all its other fields; its scriptResults are sorted by index and are a permutation of the ones received |
| Results.SortScriptResults | adaptavist/adaptavist.py:690-691 | the loop over results sorts each result's script results, as SortedResults states |
| Results.ResultFor | adaptavist/adaptavist.py:745-748 | the first result for the test case, or {} when there is none |
| Results.FirstForTestCase | adaptavist/adaptavist.py:744-748 | the loop returns the first result for the test case, or {} |
| Results.RewrittenScripts | adaptavist/adaptavist.py:888-897 | every script result is reduced to index, status and comment; only the one with index step-1 gets the new status and comment; the others keep those three keys' values |
| Results.RewriteScripts | adaptavist/adaptavist.py:888-897 | the loop computes the rewritten script results, as RewrittenScripts states |
| Results.ReportedResults | adaptavist/adaptavist.py:719-721 | a result is kept if and only if it is not excluded as an existing test case; nothing is dropped when exclusion is off |
| Results.ReportedCounts | adaptavist/adaptavist.py:718-721 | every occurrence of a result that is not excluded is kept, and no occurrence of an excluded one |
| Results.PrepareResults | adaptavist/adaptavist.py:718-725 | the loop keeps the reported results and stamps each one with assignee, executor and environment |
| Results.StampedFields | adaptavist/adaptavist.py:722-724 | an empty assignee, executor or environment becomes null and a non-empty one is sent as given; every other field is kept |
| Results.With | adaptavist/adaptavist.py:820-831 | an optional key is set only when a value is given, and no other key changes |
| Results.CreateResultBody | adaptavist/adaptavist.py:777-787 | status and comment are always sent; empty environment, assignee or executor become null; executionTime is 1000 times the seconds, only when given; issueLinks only when non-empty; no other key |
| Results.WithPeople | adaptavist/adaptavist.py:820-825 | environment, assignee and executor are set only when given; an empty assignee or executor becomes null, an empty environment is kept |
| Results.WithOutcome | adaptavist/adaptavist.py:826-831 | comment, executionTime (1000 times the seconds) and issueLinks are set only when given |
| Results.EditResultBody | adaptavist/adaptavist.py:817-831 | status is always sent; each optional key is present exactly when its argument is not None |
| Results.EditResultBodyKeys | adaptavist/adaptavist.py:817-831 | the body holds no key beyond status, comment, executionTime, environment, assignedTo, executedBy and issueLinks |
| Results.ScriptStatusBody | adaptavist/adaptavist.py:900-909 | the fetched status and the rewritten scripts are sent; environment, assignee and executor only when given, with empty people as null; no other key |
| Creating.FolderOfCreated | adaptavist/adaptavist.py:191-208 | the folder field is null if and only if the folder argument is "" or "/"; otherwise it is the normalised, rooted path |
| Creating.EnvironmentBody | adaptavist/adaptavist.py:90-94 | the body holds exactly projectKey, name and description |
| Creating.TestCaseBodyFields | adaptavist/adaptavist.py:191-219 | exactly the eleven keys; the folder is null for the root; estimatedTime is in milliseconds and null when zero; priority and status fall back to their defaults; the steps go in a step-by-step test script |
| Creating.TestCaseBodyGiven | adaptavist/adaptavist.py:192-211 | projectKey, name, objective and precondition are sent as given |
| Creating.TestPlanBody | adaptavist/adaptavist.py:409-429 | exactly the eight keys; the folder is null for the root; status defaults to Approved; projectKey, name, objective, labels, issue links and test run keys are sent as given |
| Creating.RunItems | adaptavist/adaptavist.py:578-581 | one item per test case key, in order |
| Creating.TestRunBody | adaptavist/adaptavist.py:569-591 | exactly the six keys; the folder is null for the root; empty plan key, issue key and environment become null; one item per test case |
| Editing.ListStep | adaptavist/adaptavist.py:275-276 | a list reconciliation writes only its own key, with the outcome update_field computes |
| Editing.CustomSteps | adaptavist/adaptavist.py:279-280 | the two multiline updates write only customFields, holding exactly the values that differ from the fetched content (null included) |
| Editing.TestCaseBaseKeys | adaptavist/adaptavist.py:260-272 | the scalar part of a test case edit has only the six scalar keys and folder |
| Editing.TestPlanBaseKeys | adaptavist/adaptavist.py:463-472 | the scalar part of a test plan edit has only name, objective, status and folder |
| Editing.EditedTestCase | adaptavist/adaptavist.py:260-280 | builds the edited test case body: scalar fallbacks, the folder, the labels and issue links updates, and the two multiline fields, each reconciled against the fetched value as Python's `.get` reads it (absent as [] or "", null as null) |
| Editing.AddListField | adaptavist/adaptavist.py:275-276 | update_field on a key not yet in the body leaves it with the list outcome and changes nothing else |
| Editing.AddCustomFields | adaptavist/adaptavist.py:279-280 | the two multiline updates leave customFields with exactly the changed values and change nothing else |
| Editing.ReconcileTestCase | adaptavist/adaptavist.py:274-280 | labels and issue links get update_field's outcome against the fetched values (a null one is replaced by any "-" delta), customFields gets the multiline outcomes against the fetched custom field values (a null one is always rewritten), and the scalar part is kept |
| Editing.EditedTestPlan | adaptavist/adaptavist.py:463-477 | builds the edited test plan body: scalar fallbacks, the folder, and the labels, test runs and issue links updates against the fetched values (absent as [], null as null) |
| Editing.ReconcileTestPlan | adaptavist/adaptavist.py:474-477 | labels, test run keys (read from the fetched runs' "key") and issue links get update_field's outcome against the fetched values (a null one is replaced by any "-" delta), and the scalar part is kept |
| Editing.TestCaseScalars | adaptavist/adaptavist.py:260-267 | name, objective, precondition, status, priority and estimatedTime take the caller's non-empty value (time in milliseconds), or else the fetched value |
| Editing.TestCaseFolder | adaptavist/adaptavist.py:269-272 | the folder key is present if and only if a folder was given, and it is null exactly for the root |
| Editing.TestPlanScalars | adaptavist/adaptavist.py:463-472 | name, objective and status fall back to the fetched values; the folder key is present if and only if given, and null exactly for the root |
| Editing.EmptyEditClearsBuildUrls | adaptavist/adaptavist.py:279 | an edit without build URLs, of a test case whose ci_server_url is anything but the empty text, sends an empty ci_server_url |
| Editing.NonTextBuildUrlsWritten | adaptavist/adaptavist.py:279 | a fetched ci_server_url that is not text (null) is always rewritten, with the joined entries |
| Editing.NullBuildUrlsBecomeEmpty | adaptavist/adaptavist.py:279-280 | a test case holding ci_server_url null, edited without build URLs or code bases, gets exactly {"ci_server_url": ""} as custom fields |
| Editing.KnownLabelsNotSent | adaptavist/adaptavist.py:275 | merging labels that are all already present leaves labels out of the body |
| Editing.NullLabelsCleared | adaptavist/adaptavist.py:275 | a test case whose labels are null, edited with labels ["-"], gets an empty label list |
| Client.EditOutcome | adaptavist/adaptavist.py:255-283 | a PUT is sent if and only if the entity was found and, when a folder is given, it has a project key; the PUT is the last request; the result is True if and only if that PUT got an answer |
| Client.Adaptavist.constructor | adaptavist/adaptavist.py:23-32 | a client starts with an empty log, the given answer script and the given constants |
| Client.Adaptavist.Send | adaptavist/adaptavist.py:955-989 | one request is sent and logged with the next scripted answer, or None once the script is exhausted |
| Client.Adaptavist.Paginate | adaptavist/adaptavist.py:40-50 | the requests form a whole walk from offset 0 to the first empty or failed page, and the pages are returned concatenated |
| Client.Adaptavist.GetUsers | adaptavist/adaptavist.py:40-51 | a whole walk of the user search; the users' keys are returned |
| Client.Adaptavist.GetTestCases | adaptavist/adaptavist.py:160-172 | a whole walk of the test case search, returning its items |
| Client.Adaptavist.GetTestPlans | adaptavist/adaptavist.py:382-393 | a whole walk of the test plan search, returning its items |
| Client.Adaptavist.GetTestRuns | adaptavist/adaptavist.py:529-543 | unknown arguments fail with nothing sent; otherwise a whole walk of the test run search, returning its items |
| Client.Adaptavist.GetTestRunByName | adaptavist/adaptavist.py:503-515 | a whole walk of the by-name search, reading each page's "results"; the key and name of the last run, or {} |
| Client.Adaptavist.GetTestExecutionResults | adaptavist/adaptavist.py:648-675 | a whole walk of the result report, reading each page's "results"; the rows of the kept entries |
| Client.Adaptavist.GetProjects | adaptavist/adaptavist.py:59-62 | one GET; the project summaries, or [] when it failed |
| Client.Adaptavist.GetFolders | adaptavist/adaptavist.py:107-115 | the project listing, then the folder tree only when the project id is found; the flattened folder names |
| Client.Adaptavist.CreateFolder | adaptavist/adaptavist.py:126-138 | the requests of a folder creation, and the id it yields |
| Client.Adaptavist.CreateEnvironment | adaptavist/adaptavist.py:85-97 | unknown arguments fail with nothing sent; otherwise one POST of the environment body; its "id", or None when it failed |
| Client.Adaptavist.GetTestCase | adaptavist/adaptavist.py:147-150 | one GET; the record received, or {} when it failed |
| Client.Adaptavist.GetTestPlan | adaptavist/adaptavist.py:369-372 | one GET; the record received, or {} when it failed |
| Client.Adaptavist.GetTestRun | adaptavist/adaptavist.py:489-492 | one GET; the record received, or {} when it failed |
| Client.Adaptavist.PostInFolder | adaptavist/adaptavist.py:202-221 | a folder creation for the given name, then the POST; its answer is returned |
| Client.Adaptavist.SendEdit | adaptavist/adaptavist.py:269-283 | fails on a missing project key when a folder is given; otherwise creates the folder when given, then PUTs the body; True if and only if the PUT got an answer |
| Client.Adaptavist.CreateTestCase | adaptavist/adaptavist.py:191-222 | unknown arguments fail with nothing sent; otherwise the TEST_CASE folder creation, then the POST of the test case body; the answer's "key" or None |
| Client.Adaptavist.CreateTestPlan | adaptavist/adaptavist.py:409-433 | the same for a test plan, in the TEST_PLAN folder tree |
| Client.Adaptavist.CreateTestRun | adaptavist/adaptavist.py:569-594 | the same for a test run, in the TEST_RUN folder tree |
| Client.Adaptavist.EditTestCase | adaptavist/adaptavist.py:242-283 | unknown arguments fail with nothing sent; otherwise the fetch, then the edit trace with the edited test case body in its PUT |
| Client.Adaptavist.UpdateTestCase | adaptavist/adaptavist.py:255-283 | the fetch; False with nothing more when not found; otherwise the edit trace with the edited body |
| Client.Adaptavist.SendTestCaseEdit | adaptavist/adaptavist.py:259-283 | after a successful fetch, the folder creation and PUT of the edited test case body |
| Client.Adaptavist.EditTestPlan | adaptavist/adaptavist.py:449-480 | unknown arguments fail with nothing sent; otherwise the fetch, then the edit trace (folder in the TEST_CASE tree) with the edited test plan body |
| Client.Adaptavist.UpdateTestPlan | adaptavist/adaptavist.py:458-480 | the fetch; False with nothing more when not found; otherwise the edit trace with the edited body |
| Client.Adaptavist.SendTestPlanEdit | adaptavist/adaptavist.py:462-480 | after a successful fetch, the folder creation and PUT of the edited test plan body |
| Client.Adaptavist.UpdateLinks | adaptavist/adaptavist.py:316-333 | the loop over test case keys produces a link or unlink walk and its result |
| Client.Adaptavist.LinkOne | adaptavist/adaptavist.py:317-331 | one test case: its GET, then the PUT only when needed; it succeeds unless that PUT failed |
| Client.Adaptavist.LinkTestCases | adaptavist/adaptavist.py:316-333 | the requests and result of linking the issue to each test case |
| Client.Adaptavist.UnlinkTestCases | adaptavist/adaptavist.py:343-360 | the requests and result of unlinking the issue from each test case |
| Client.Adaptavist.GetTestResults | adaptavist/adaptavist.py:684-692 | one GET; [] when it failed, otherwise the results with their script results sorted by index |
| Client.Adaptavist.GetTestResult | adaptavist/adaptavist.py:744-748 | one GET of the run's results; the first for the test case, or {} |
| Client.Adaptavist.CreateTestResults | adaptavist/adaptavist.py:707-734 | unknown arguments fail with nothing sent; the run is fetched; nothing more when it is not found or nothing is left to report; otherwise one POST of the kept, stamped results; the ids returned |
| Client.Adaptavist.CreateTestResult | adaptavist/adaptavist.py:765-791 | unknown arguments fail with nothing sent; otherwise one POST of the result body (status defaulting to not executed, people resolved to the current user when None); its "id" or None |
| Client.Adaptavist.EditTestResultStatus | adaptavist/adaptavist.py:808-834 | unknown arguments fail with nothing sent; otherwise one PUT of the edit body; True if and only if it got an answer |
| Client.Adaptavist.EditTestScriptStatus | adaptavist/adaptavist.py:879-912 | unknown arguments fail with nothing sent; the results are fetched; a result without status fails; otherwise one PUT of the fetched status with the rewritten script results; True if and only if it got an answer |

## Left out

- HTTP: the `_get`, `_post`, `_put` and `_delete` wrappers become one
  transport. It returns a payload, or `None` for any failure. Status codes,
  exceptions and their logging are not modelled.
- URL construction, `quote_plus` encoding, JSON serialisation and logging.
  A request names its resource and keeps the query values that select a page
  or a search, not the URL text.
- `get_executor`: it reads environment variables and calls `getpass`. The
  model takes the user it would report as the constructor parameter
  `currentUser`.
- File uploads and attachments (`_upload_file`, `_upload_file_by_name` and the
  attachment operations). These are multipart encoding and file I/O.
- Operations outside the modelled core: `get_environments`,
  `delete_test_case`, `get_test_case_links`, `get_test_run_links` and
  `clone_test_run`.
- Helper.ListOfSet: the order in which Python iterates a set is not defined.
  The appended tail is specified only as a duplicate-free list of exactly the
  new elements.
- Malformed payloads: where Python raises `KeyError`, `TypeError` or
  `AttributeError` on an answer of the wrong shape, the model reads a missing
  key as `null`, a non-list as `[]` and a non-record as `{}`. Examples: a
  null `customFields` (`None.get`); a null `testRuns` in `edit_test_plan`;
  a null `labels` or `issueLinks` merged without a leading `"-"`, which the
  model merges into `[]` where Python raises `TypeError`. Two exceptions are modelled as errors:
  - `MissingKey("projectKey")` in the edits when a folder is given;
  - `MissingKey("status")` in `edit_test_script_status`.
- Editing.CustomField: a fetched custom field that is not text (null, say)
  is kept as that value, so it always differs from the joined text and is
  rewritten, as in Python. When entries are added to it outside replace
  mode, the model tests them against the empty text. Python would raise
  `TypeError` on `in` for null or a number, or test membership for a list.
- Results.SortedResults: a script result whose `index` is not an integer
  sorts as index 0. Python would compare whatever values are there, or raise
  an error.
- Folder trees: a child that is not a record counts as a folder
  with an empty name and no children.
- Aliasing: the caller's dictionaries and lists are values in the model.
  `create_test_results` writing into the caller's result dictionaries, and
  `edit_test_script_status` editing the fetched script results in place, are
  not visible to the caller.
- Pagination against a server that never returns an empty page: answers
  come from a finite script, so every walk ends.
- `str.replace` with an empty pattern: it is never used by the client, and
  `PyStr.Replace` requires a non-empty pattern.
- Packaging, version metadata and the test fixtures.
