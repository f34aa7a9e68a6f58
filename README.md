# TrackML front end: a Dafny model of its page logic

TrackML is a single-page web application for keeping track of machine-learning
models a user has tried, is studying or wants to try, grouped into workspaces.
This project models the logic of its pages and of its API module:

- The model list: keyword or semantic search, the tag catalogue, the create
  form with its autofill merge, the link chips, and the selection of models to
  compare.
- The comparison page: it reads the ids back from the link, fetches the models
  in order, and splits the analysis into paragraphs.
- The dashboard: counts by status and type, the distinct tags, the five most
  recent models, and the popular tags.
- The model detail page: the load, edit, save, cancel and delete flow, and the
  parsers of the tag, link and parameter inputs.
- The workspace list and detail pages.
- The authentication context.
- The API module: which search parameters are sent and in what order, the
  request bodies, and the bearer-token store with its interceptors.

Each page is a class. Its fields are the page's state and its methods are the
page's handlers. Every class records the requests it sends, oldest first, in
a `calls` field. What the backend answers is a parameter of the handler
(`Result<T, ApiError>`), and so are:

- the user's answer to a confirmation dialog;
- today's date;
- the ISO date conversion (`toIso`);
- the millisecond time of a date (`timeOf`).

"No request is made" is stated as `calls` being unchanged. Navigation is a
`location` field. List and string transformations are functions, and the
properties the pages rely on are proved about them as lemmas: round trips,
orders, counts and what a deletion keeps.

Modules:

- `Wrappers`: Option and Result.
- `Text`: JavaScript `trim`, `split` and `join`.
- `Numbers`: `String(n)`, `Number(s)` and `parseInt(s)`.
- `Lists`: `filter`, the insertion-ordered `Set`, `slice` and the default
  string `sort`.
- `Types`: the records of `src/types.ts`.
- `Api`: `src/services/api.ts`.
- `Inputs`: the text inputs of the model forms.
- `ModelList`, `ModelComparison`, `Dashboard`, `ModelDetail`, `Workspaces`,
  `WorkspaceDetail` and `AuthContext`: one module per page or context.

The model follows the code where it differs from the project's description:

- Selecting an id twice keeps both copies.
- The search query is sent untrimmed.
- `authApi.login` stores the answer's token before the context checks it. A
  successful answer with no token therefore leaves the text "undefined" in
  storage.
- The semantic-search checkbox fetches with the flag from before the change,
  so checking it sends a keyword search (see "## Findings").

## Model

| member | source | states |
|---|---|---|
| Text.Trim | src/pages/Workspaces.tsx:31 | the result has no space at either end, and it is empty exactly when the input is all spaces |
| Text.TrimTrimmed | src/pages/Workspaces.tsx:36 | a string that is already trimmed is left unchanged |
| Text.TrimIdempotent | src/pages/Workspaces.tsx:36 | trimming twice is the same as trimming once |
| Text.TrimPadded | src/pages/ModelDetail.tsx:203 | leading spaces in front of a trimmed string are exactly what trim removes |
| Text.Split | src/pages/ModelComparison.tsx:91 | splitting always gives at least one piece |
| Text.JoinSplit | src/pages/ModelComparison.tsx:91 | joining the pieces of a split with the separator gives the text back |
| Text.SplitCount | src/pages/ModelComparison.tsx:91 | a split has one more piece than the text has separators |
| Text.SplitNoSep | src/pages/ModelComparison.tsx:16 | a text without the separator splits into itself alone |
| Text.SplitAt | src/pages/ModelComparison.tsx:16 | a split at the first separator gives the part before it, then the split of the rest |
| Text.SplitSepFree | src/pages/ModelComparison.tsx:91 | no piece of a split contains the separator |
| Text.SplitJoin | src/pages/ModelComparison.tsx:16 | splitting what join rendered gives back the separator-free parts, each part after the first with the padding in front |
| Text.TrimNonEmpty | src/pages/ModelDetail.tsx:203 | mapping trim and dropping empty pieces keeps only trimmed, non-empty pieces |
| Text.TrimKeepsOut | src/pages/ModelDetail.tsx:203 | trimming never introduces a character |
| Text.TrimNonEmptyKeepsOut | src/pages/ModelDetail.tsx:203 | a character absent from every piece is absent from every trimmed piece |
| Text.SplitTrimmed | src/pages/ModelDetail.tsx:203 | every parsed piece is non-empty, trimmed and free of the separator |
| Text.TrimNonEmptyPrefixed | src/pages/ModelDetail.tsx:200-204 | trimmed parts with spaces in front are recovered by trim-and-drop-empty |
| Text.SplitTrimmedJoin | src/pages/ModelDetail.tsx:200-204 | parsing the join of trimmed, non-empty, separator-free parts gives the parts back |
| Text.PieceTrimming | src/pages/ModelDetail.tsx:200-204 | the first part and the padded later parts trim back to the parts |
| Numbers.NatToString | src/pages/ModelList.tsx:158 | `String(n)` gives decimal digits that read back as n, with no leading zero |
| Numbers.DigitRun | src/pages/ModelDetail.tsx:25 | the longest run of digits at the start of the text |
| Numbers.ParseInt | src/pages/ModelDetail.tsx:25 | `parseInt` gives an integer or NaN |
| Numbers.NumberOf | src/pages/ModelComparison.tsx:16 | `Number` of blank text is 0; otherwise an integer or a text left unparsed |
| Numbers.ParseIntString | src/pages/ModelDetail.tsx:183 | `parseInt` of `String(v)` is v, for every integer v |
| Numbers.NumberOfString | src/pages/ModelComparison.tsx:16 | `Number` of `String(n)` is n, for every natural n |
| Numbers.ParseUnsignedDecimal | src/pages/ModelDetail.tsx:25 | canonical decimal digits are read as their value |
| Lists.Filter | src/pages/ModelList.tsx:149 | the result holds only kept elements of the input and every kept element of it |
| Lists.FilterConcat | src/pages/ModelList.tsx:149 | filtering a concatenation filters each part, so the kept elements keep their order |
| Lists.FilterCount | src/pages/ModelList.tsx:149 | a kept element occurs as often as before, and a rejected one does not occur |
| Lists.FilterKeepsAll | src/pages/ModelList.tsx:149 | a filter that rejects nothing returns its input |
| Lists.IndexOf | src/pages/Dashboard.tsx:173-174 | the position of the first occurrence |
| Lists.Distinct | src/pages/ModelList.tsx:67-68 | every element once, with nothing added and nothing lost |
| Lists.DistinctFirstSeen | src/pages/Dashboard.tsx:173-174 | the distinct elements come in the order of their first occurrence |
| Lists.IndexOfPrefix | src/pages/Dashboard.tsx:173-174 | appending does not move a first occurrence |
| Lists.Take | src/pages/Dashboard.tsx:141 | `slice(0, n)` is the prefix of length min(n, length) |
| Lists.StrLeqTotal | src/pages/ModelList.tsx:69 | any two strings are ordered one way or the other |
| Lists.StrLeqAntisymmetric | src/pages/ModelList.tsx:69 | strings ordered both ways are equal |
| Lists.StrLeqTransitive | src/pages/ModelList.tsx:69 | the string order is transitive |
| Lists.Insert | src/pages/ModelList.tsx:69 | an insertion adds exactly the one element |
| Lists.InsertSorted | src/pages/ModelList.tsx:69 | an insertion keeps a list sorted |
| Lists.InsertStrictlySorted | src/pages/ModelList.tsx:69 | inserting a new element keeps a list strictly increasing |
| Lists.SortStrings | src/pages/ModelList.tsx:69 | `sort()` gives a sorted permutation of its input |
| Lists.SortDistinct | src/pages/ModelList.tsx:67-69 | sorting a duplicate-free list gives a strictly increasing list |
| Types.AllTags | src/pages/ModelList.tsx:68 | every tag of every model is in the list, and nothing else is |
| Api.BuildSearchParams | src/services/api.ts:123-133 | the appends build exactly the query `SearchQuery` describes |
| Api.LookupSnoc | src/services/api.ts:124 | an appended key is found only when no earlier entry has it |
| Api.LookupMissing | src/services/api.ts:124-133 | a key that was never appended is not found |
| Api.AppendLater | src/services/api.ts:124-133 | appending a key later in the order keeps the order and adds exactly that key |
| Api.AppendIfLater | src/services/api.ts:124-127 | appending a later key when its value is truthy keeps the order, and the key maps to its value exactly when that is truthy |
| Api.LeadingContents | src/services/api.ts:124-127 | q, type, status and tag are in order, each present iff truthy |
| Api.SearchQueryLookup | src/services/api.ts:124-133 | each of q, type, status, tag and date_interacted is sent iff its field is truthy (the date in ISO form), and no other key, such as workspace_id, is ever sent |
| Api.SearchQueryOrdered | src/services/api.ts:124-133 | the keys come in the fixed order q, type, status, tag, date_interacted, each at most once |
| Api.ModelBody | src/services/api.ts:90-115 | the create and update bodies never hold `user_id`; the date is sent in ISO form iff it is truthy; every other field is sent unchanged |
| Api.CompareBody | src/services/api.ts:169-177 | the ids are sent unchanged and in order under `model_ids`, and nothing else is sent |
| Api.TokenStore.constructor | src/services/api.ts:24 | the store starts from the token found in storage |
| Api.TokenStore.Authorization | src/services/api.ts:23-29 | a request carries `Bearer <token>` iff a non-empty token is stored |
| Api.TokenStore.Intercept | src/services/api.ts:31-41 | a 401 clears the token; every outcome reaches the caller unchanged |
| Api.TokenStore.Login | src/services/api.ts:43-48 | on success the answer's token is stored (the text "undefined" if it has none); a failure goes through the interceptor |
| Api.StoredText | src/services/api.ts:46 | what storage keeps for an answer's token: the token itself, or the text "undefined" when the answer has none |
| Api.TokenStore.Register | src/services/api.ts:55-62 | the same as login |
| Api.TokenStore.Logout | src/services/api.ts:64-66 | the token is removed |
| Api.TokenStore.DeleteUser | src/services/api.ts:73-76 | the token is removed once the deletion succeeded or on a 401, and kept otherwise |
| Inputs.ParseTags | src/pages/ModelDetail.tsx:203 | every parsed tag is non-empty, trimmed and comma-free |
| Inputs.TagsRoundTrip | src/pages/ModelDetail.tsx:200-204 | showing tags that are trimmed, non-empty and comma-free, then parsing them, gives the same list |
| Inputs.TagsText | src/pages/ModelDetail.tsx:200 | the tag box shows the draft's tags joined with ", ", or nothing; its partner is Inputs.TagsRoundTrip |
| Inputs.ParseTagsStable | src/pages/ModelDetail.tsx:200-204 | parsed tags survive being shown and parsed again |
| Inputs.ParseLinks | src/pages/ModelDetail.tsx:214 | every parsed link is non-empty, trimmed and on one line |
| Inputs.LinksRoundTrip | src/pages/ModelDetail.tsx:211-215 | showing clean links one per line, then parsing them, gives the same links |
| Inputs.LinksText | src/pages/ModelDetail.tsx:211 | the link box shows the draft's links one per line, or nothing; its partner is Inputs.LinksRoundTrip |
| Inputs.ParseLinksStable | src/pages/ModelDetail.tsx:211-215 | parsed links survive being shown and parsed again |
| Inputs.ParametersFromInput | src/pages/ModelDetail.tsx:183 | the field is set iff `parseInt` gives a non-zero integer, so "0" and unparsable input clear it |
| Inputs.ParametersRoundTrip | src/pages/ModelDetail.tsx:182-183 | a non-zero count survives being shown and parsed back, and an absent one stays absent |
| Inputs.ParametersText | src/pages/ModelDetail.tsx:182 | the parameter box shows the count in decimal, or nothing when it is absent or 0; its partner is Inputs.ParametersRoundTrip |
| ModelList.ToggleSelection | src/pages/ModelList.tsx:147-151 | selecting appends the id even if it is already selected; deselecting removes every copy of it and keeps every other id as often as before |
| ModelList.DeselectKeepsOrder | src/pages/ModelList.tsx:149 | deselecting acts on each part separately, so the other ids keep their order |
| ModelList.DeselectAbsent | src/pages/ModelList.tsx:149 | deselecting an id that is not selected changes nothing |
| ModelList.IdTexts | src/pages/ModelList.tsx:158 | each id's decimal text, in order |
| ModelList.CompareTarget | src/pages/ModelList.tsx:153-159 | fewer than 2 selected ids is refused with its message; otherwise the target is `/compare?models=` and the ids joined with ',' in selection order |
| ModelList.FetchRequest | src/pages/ModelList.tsx:44-54 | semantic search iff the flag is on and the trimmed query is not empty, with the untrimmed query sent; otherwise keyword search with q, type, status and tag from the filters |
| ModelList.KeywordSearchQuery | src/pages/ModelList.tsx:47-53 | a keyword search sends the query untrimmed when it is not empty, sends each of the type, status and tag filters exactly when one is chosen, and never sends a date or a workspace |
| ModelList.TagCatalogue | src/pages/ModelList.tsx:64-70 | the catalogue is strictly increasing and holds exactly the tags some model has |
| ModelList.CreateRequest | src/pages/ModelList.tsx:79-101 | the user check comes before the name check; the request is accepted iff both pass; tags and links default to [], the date is today, the owner is the user, every other field is copied from the draft and the workspace and owner name are left unset |
| ModelList.AutofillMerge | src/pages/ModelList.tsx:134-139 | tags are the draft's then the server's; links are the draft's, then the chips, then the server's; every other field the server sent overrides the draft's |
| ModelList.Override | src/pages/ModelList.tsx:134-136 | `{...prev, ...data}`: each field the answer holds replaces the draft's; its laws are ModelList.OverrideLaws |
| ModelList.OverrideLaws | src/pages/ModelList.tsx:134-136 | spreading an answer with no fields changes nothing, spreading the same answer twice equals spreading it once, and two spreads in a row equal one spread of the second answer over the first |
| ModelList.AutofillNothing | src/pages/ModelList.tsx:134-139 | an empty answer with no chips changes nothing, except that absent tags and links become [] |
| ModelList.AutofillAccumulates | src/pages/ModelList.tsx:137 | two autofills in a row accumulate tags in order |
| ModelList.AddLink | src/pages/ModelList.tsx:320-346 | the trimmed input is appended iff it is not blank, and the chips stay clean |
| ModelList.RemoveLinkAt | src/pages/ModelList.tsx:361-365 | exactly the chip at the index is removed and the others keep their order; an index past the end removes nothing |
| ModelList.TypeLink | src/pages/ModelList.tsx:319-326 | typing key by key into the link box, which is held empty: each keystroke is its own change event, adds at most one chip, and the chips already there stay first |
| ModelList.TypingSplitsLink | src/pages/ModelList.tsx:319-326 | typing "ab" into the link box gives the two chips "a" and "b" |
| ModelList.AddLinkWhole | src/pages/ModelList.tsx:327-346 | a trimmed, non-empty link entered whole and added with Enter or the Add button becomes exactly one chip, unchanged |
| ModelList.ToggleFetchAsWritten | src/pages/ModelList.tsx:219-224 | the checkbox fetches iff it is checked with a non-empty query, using the flag from before the change |
| ModelList.ToggleFetchStale | src/pages/ModelList.tsx:219-224 | checking the box with query "llama" sends a keyword search, not a semantic one |
| ModelList.ToggleFetch | src/pages/ModelList.tsx:219-224 | the corrected checkbox fetch uses the new flag |
| ModelList.ToggleFetchSemantic | src/pages/ModelList.tsx:219-224 | with the correction, checking the box with a query that is not blank runs a semantic search of that query |
| ModelList.ModelListPage.constructor | src/pages/ModelList.tsx:9-28 | the initial state, with the draft `{tags: [], source_links: []}` |
| ModelList.ModelListPage.FetchModels | src/pages/ModelList.tsx:39-62 | one search request for the current filters; success replaces the list; failure keeps it and sets 'Failed to fetch models'; loading ends either way |
| ModelList.ModelListPage.FetchTags | src/pages/ModelList.tsx:64-74 | the tags become the catalogue of every model, or 'Failed to fetch tags' is set |
| ModelList.ModelListPage.Mount | src/pages/ModelList.tsx:34-37 | the first render fetches the models and then the tags; loading ends; the message is 'Failed to fetch tags' if the tags failed, else 'Failed to fetch models' if the models failed, else unchanged |
| ModelList.ModelListPage.CreateModel | src/pages/ModelList.tsx:76-110 | a failed check sets its message and sends nothing; a created model closes the form, resets the draft and refetches, loading ends and a failed refetch sets 'Failed to fetch models'; a failed create keeps the draft and sets 'Failed to create model'; only the refetch touches loading |
| ModelList.ModelListPage.DeleteModel | src/pages/ModelList.tsx:112-120 | nothing happens without confirmation; a deletion refetches, loading ends and a failed refetch sets 'Failed to fetch models'; a failed delete sets 'Failed to delete model' and leaves loading alone |
| ModelList.ModelListPage.Autofill | src/pages/ModelList.tsx:122-145 | nothing happens without an identifier; otherwise the answer is merged into the draft, a failure reports its own message or the default one, and autofilling ends either way |
| ModelList.ModelListPage.EditDraftTags | src/pages/ModelList.tsx:511-514 | the draft's tags become the parsed input |
| ModelList.ModelListPage.SelectModel | src/pages/ModelList.tsx:147-151 | the selection becomes `ToggleSelection` of the old one |
| ModelList.ModelListPage.Compare | src/pages/ModelList.tsx:153-159 | fewer than 2 selected ids sets the message and does not navigate; otherwise the page navigates to the comparison link |
| ModelList.ModelListPage.AddModelLink | src/pages/ModelList.tsx:320-346 | the chips become `AddLink` of the old ones and stay clean |
| ModelList.ModelListPage.RemoveModelLink | src/pages/ModelList.tsx:361-365 | the chips become `RemoveLinkAt` of the old ones and stay clean |
| ModelList.ModelListPage.ClearModelLinks | src/pages/ModelList.tsx:378 | no chips are left |
| ModelList.ModelListPage.ToggleSemantic | src/pages/ModelList.tsx:219-224 | the flag takes the box's value; a fetch is sent iff the box is checked with a non-empty query, and it is the request for the flag from before the change, so checking the box sends a keyword search; with no fetch the message and loading are unchanged, with one loading ends and a failure sets 'Failed to fetch models' |
| ModelComparison.ParseModelIds | src/pages/ModelComparison.tsx:16 | no parameter gives no ids; otherwise there is one number per comma-separated piece, one more than there are commas |
| ModelComparison.AsNumbers | src/pages/ModelComparison.tsx:16 | the ids as the integers they are read as |
| ModelComparison.PrefixedNothing | src/pages/ModelComparison.tsx:16 | empty padding changes no piece |
| ModelComparison.SplitIdList | src/pages/ModelComparison.tsx:16 | splitting the joined ids on ',' gives back each id's decimal text |
| ModelComparison.ParseIdList | src/pages/ModelComparison.tsx:16 | parsing the ids the list page joined with ',' gives the same natural-number ids, in order |
| ModelComparison.ParseEmptyParameter | src/pages/ModelComparison.tsx:16 | an empty parameter is read as the one id 0 |
| ModelComparison.DetailCalls | src/pages/ModelComparison.tsx:24 | one detail request per id, in order |
| ModelComparison.FetchAll | src/pages/ModelComparison.tsx:24-26 | all models in id order iff every request succeeds, and otherwise the failure of one of them |
| ModelComparison.ComparisonPage.constructor | src/pages/ModelComparison.tsx:8-11 | no models, no analysis, loading, no message, and no request sent |
| ModelComparison.Paragraphs | src/pages/ModelComparison.tsx:91 | one paragraph more than there are line breaks, none containing a line break, and joined with line breaks they give the text back |
| ModelComparison.ComparisonPage.Load | src/pages/ModelComparison.tsx:13-36 | fewer than 2 ids sets 'Not enough models selected for comparison' and sends nothing; otherwise the models come in id order and then the analysis; any failure sets 'Failed to load comparison'; loading ends in every case |
| Dashboard.Keys | src/pages/Dashboard.tsx:35-41 | at most one key per model; which keys, and how often, is stated by Dashboard.KeysCount |
| Dashboard.KeysCount | src/pages/Dashboard.tsx:35-41 | each non-empty value occurs once per model whose field holds it, and the empty value never occurs |
| Dashboard.CountsOfModels | src/pages/Dashboard.tsx:35-41 | a value has a count iff it is non-empty and some model holds it, and the count is the number of those models |
| Dashboard.CountsOf | src/pages/Dashboard.tsx:36-41 | a key is counted iff it occurs, and its count is its number of occurrences |
| Dashboard.DistinctMember | src/pages/Dashboard.tsx:32 | a value is in the set iff it was added |
| Dashboard.KeysStep | src/pages/Dashboard.tsx:35-41 | one more model adds its key, if it is truthy |
| Dashboard.CountsStep | src/pages/Dashboard.tsx:37 | one more key bumps its count |
| Dashboard.CountStep | src/pages/Dashboard.tsx:36-41 | one more model bumps the count of its key, if it has one |
| Dashboard.AllTagsStep | src/pages/Dashboard.tsx:42-44 | one more model adds its tags |
| Dashboard.DistinctStep | src/pages/Dashboard.tsx:43 | `add` appends a new value and ignores a present one |
| Dashboard.AddTags | src/pages/Dashboard.tsx:43 | adding a model's tags one by one gives the set of every tag seen |
| Dashboard.GetModelStats | src/pages/Dashboard.tsx:27-48 | total is the number of models; byStatus and byType count each truthy value; totalTags is the set of all tags in first-seen order |
| Dashboard.SumOverOther | src/pages/Dashboard.tsx:37 | changing a key that is not summed leaves the sum unchanged |
| Dashboard.SumOverBump | src/pages/Dashboard.tsx:37 | bumping a summed key adds one to the sum |
| Dashboard.CountsSum | src/pages/Dashboard.tsx:36-41 | the counts add up to the number of values counted |
| Dashboard.NoDuplicatesCard | src/pages/Dashboard.tsx:93 | a duplicate-free list has as many elements as its set |
| Dashboard.GroupKeys | src/pages/Dashboard.tsx:87 | the keys shown are exactly those some model has |
| Dashboard.GroupSize | src/pages/Dashboard.tsx:87 | the "Model Types" figure is the number of distinct types |
| Dashboard.GroupSum | src/pages/Dashboard.tsx:36-41 | the counts add up to the number of models with the field, which is at most the total |
| Dashboard.TotalTagsCount | src/pages/Dashboard.tsx:93 | the "Total Tags" figure is the number of distinct tags |
| Dashboard.SwapStep | src/pages/Dashboard.tsx:136-140 | a swap during insertion moves the newer model left and keeps the models |
| Dashboard.DateKey | src/pages/Dashboard.tsx:137-139 | the time a model is sorted by: the time of its date, or 0 when the date is missing or empty |
| Dashboard.InsertDone | src/pages/Dashboard.tsx:136-140 | an insertion that stops leaves the prefix sorted |
| Dashboard.SortRecent | src/pages/Dashboard.tsx:136-140 | the sort orders the array in place, newest first (a missing date counts as 0), and keeps the same models |
| Dashboard.InsertNewest | src/pages/Dashboard.tsx:136-140 | one insertion step: with the first i models sorted, moving the next one left past the older ones sorts the first i + 1 and keeps the models |
| Dashboard.PopularTags | src/pages/Dashboard.tsx:173-174 | at most 15 tags, a prefix of the set |
| Dashboard.PopularTagsFirstSeen | src/pages/Dashboard.tsx:173-174 | popular tags come in the order of their first occurrence |
| Dashboard.DashboardPage.Fetch | src/pages/Dashboard.tsx:12-25 | success replaces the list; failure keeps it and sets 'Failed to fetch models'; loading ends either way |
| Dashboard.DashboardPage.constructor | src/pages/Dashboard.tsx:8-10 | no models, loading, no message, and no request sent |
| Dashboard.DashboardPage.RecentModels | src/pages/Dashboard.tsx:136-141 | the page's list is sorted newest first, and the first min(5, length) models are shown |
| ModelDetail.ModelDetailPage.FetchModel | src/pages/ModelDetail.tsx:22-33 | without an id nothing is requested and nothing changes; success sets both the model and the draft to the answer; failure keeps both and sets the message |
| ModelDetail.ModelDetailPage.constructor | src/pages/ModelDetail.tsx:9-13 | no model, loading, no message, not editing, no draft, and no request sent |
| ModelDetail.ModelDetailPage.Save | src/pages/ModelDetail.tsx:35-45 | with no draft or no id nothing is sent and nothing changes; a saved draft becomes the model, editing ends and the model is refetched, a failed refetch setting 'Failed to fetch model details', and loading ends; a failed save keeps the model and the edit mode, leaves loading alone and sets 'Failed to update model' |
| ModelDetail.ModelDetailPage.Delete | src/pages/ModelDetail.tsx:47-55 | nothing happens without an id or confirmation; the page moves to /models only on success |
| ModelDetail.ModelDetailPage.StartEdit | src/pages/ModelDetail.tsx:119 | editing begins |
| ModelDetail.ModelDetailPage.Cancel | src/pages/ModelDetail.tsx:107-110 | the draft goes back to the last loaded model, and editing ends |
| ModelDetail.ModelDetailPage.EditTags | src/pages/ModelDetail.tsx:201-204 | the draft's tags become the parsed input, and nothing else changes |
| ModelDetail.ModelDetailPage.EditLinks | src/pages/ModelDetail.tsx:212-215 | the draft's links become the parsed input, and nothing else changes |
| ModelDetail.ModelDetailPage.EditParameters | src/pages/ModelDetail.tsx:183 | the draft's parameter count becomes `parseInt(...) \|\| undefined` of the input |
| Workspaces.PayloadMeaning | src/pages/Workspaces.tsx:31-38 | no request iff the name is blank; otherwise the trimmed name, and the trimmed description, or none if it is blank |
| Workspaces.WorkspacePayload | src/pages/Workspaces.tsx:31-38 | the request body the form sends, or none; its meaning is stated by Workspaces.PayloadMeaning |
| Workspaces.PayloadStable | src/pages/Workspaces.tsx:35-38 | resubmitting what was sent sends the same thing |
| Workspaces.CanSubmit | src/pages/Workspaces.tsx:113 | submit is enabled iff nothing is being created and the create would send a request |
| Workspaces.RemoveById | src/pages/Workspaces.tsx:54 | no entry with the id is left, and every other entry stays as often as before |
| Workspaces.RemoveByIdKeepsOrder | src/pages/Workspaces.tsx:54 | removal acts on each part of the list separately, so the others keep their order |
| Workspaces.WorkspacesPage.Load | src/pages/Workspaces.tsx:18-27 | success replaces the list; failure sets 'Failed to load workspaces'; loading ends either way |
| Workspaces.WorkspacesPage.constructor | src/pages/Workspaces.tsx:7-12 | no workspaces, loading, no message, both form fields empty, not creating, and no request sent |
| Workspaces.WorkspacesPage.Create | src/pages/Workspaces.tsx:29-47 | a blank name sends nothing; success appends the new workspace and clears both fields; failure keeps the list and the form and sets the message; creating is over either way |
| Workspaces.WorkspacesPage.Delete | src/pages/Workspaces.tsx:49-58 | nothing happens without confirmation; success removes exactly the entries with the id; failure keeps the list and sets the message |
| WorkspaceDetail.WorkspaceDetailPage.Load | src/pages/WorkspaceDetail.tsx:16-33 | without an id nothing is requested and nothing changes; success sets the workspace, the edit name to its name, and the edit description to its description or '' |
| WorkspaceDetail.WorkspaceDetailPage.constructor | src/pages/WorkspaceDetail.tsx:9-14 | no workspace, loading, no message, not editing, both edit fields empty, and no request sent |
| WorkspaceDetail.WorkspaceDetailPage.ToggleEdit | src/pages/WorkspaceDetail.tsx:111 | the edit mode flips |
| WorkspaceDetail.WorkspaceDetailPage.Update | src/pages/WorkspaceDetail.tsx:35-49 | with no workspace or a blank name nothing is sent; otherwise the trimmed payload is sent for the workspace's id; success replaces the workspace and ends editing; failure keeps it and sets 'Failed to update workspace' |
| WorkspaceDetail.UpdateRequest | src/pages/WorkspaceDetail.tsx:35-43 | the update the edit form sends: none without a workspace or with a blank name, otherwise the workspace's id with the payload of Workspaces.WorkspacePayload |
| WorkspaceDetail.WorkspaceDetailPage.Delete | src/pages/WorkspaceDetail.tsx:51-60 | nothing happens without a workspace or confirmation; the page moves to /workspaces only on success |
| WorkspaceDetail.WorkspaceDetailPage.MoveModel | src/pages/WorkspaceDetail.tsx:62-72 | nothing happens without a workspace; the move uses the current workspace as the source, and that same id is then refetched; any failure sets 'Failed to move model' |
| AuthContext.SignedInUser | src/contexts/AuthContext.tsx:50 | an answer signs in its user iff it has both a non-empty token and a user |
| AuthContext.AuthProvider.constructor | src/contexts/AuthContext.tsx:17-18 | no user, and loading |
| AuthContext.AuthProvider.IsAuthenticated | src/contexts/AuthContext.tsx:86 | `!!user`: signed in iff there is a user |
| AuthContext.AuthProvider.CheckAuth | src/contexts/AuthContext.tsx:20-45 | with no token no request is sent; an answer with a user sets it; no user or an error removes the token; loading ends in every case |
| AuthContext.AuthProvider.Accept | src/contexts/AuthContext.tsx:50-55 | a complete answer sets the user; anything else is rejected as 'Invalid response from server' and leaves the user unchanged |
| AuthContext.AuthProvider.Login | src/contexts/AuthContext.tsx:47-60 | succeeds iff the answer has both a token and a user; the user is then authenticated and later requests carry the new token; otherwise the user is unchanged and the error is passed on |
| AuthContext.AuthProvider.Register | src/contexts/AuthContext.tsx:62-75 | the same as login |
| AuthContext.AuthProvider.Logout | src/contexts/AuthContext.tsx:77-80 | the token and the user are removed, so the user is not authenticated and no later request is authorised |
| AuthContext.UseAuth | src/contexts/AuthContext.tsx:98-104 | the context's value inside a provider, and the error 'useAuth must be used within an AuthProvider' outside one |

## Left out

- Rendering and routing:
  - All JSX, styling and `src/App.tsx` are presentation.
  - `src/components/ModelCard.tsx` is presentation, and its checkbox wiring is not modelled.
- Browser and transport:
  - `window.confirm` and `navigate` are inputs, or a `location` field.
  - axios is reduced to the `calls` trace plus outcome parameters.
  - The `window.location` redirect after a 401 is not modelled; only the token clearing is.
  - URL percent-encoding of query parameters and JSON serialisation (null versus an absent field) are not modelled.
- Handlers that run concurrently are not modelled:
  - Each handler is one atomic step, with the backend's answers given up front.
  - A response that arrives after a newer request is not modelled.
  - `Promise.all` is modelled as requests in id order that fail on the first failure.
- Dates and clocks are parameters:
  - today's date;
  - the ISO conversion (`toIso`), including invalid dates that throw;
  - the time of a date (`timeOf`).
  - The "Models This Month" figure and `toLocaleString` are not modelled.
- `Number()` is modelled only for an optional sign followed by decimal digits, and for blank text. Fractions, exponents, hexadecimal literals and Infinity are kept as unparsed text. `parseInt` is modelled for decimal and `0x` digits, without floating-point rounding of very long numbers.
- String order is compared by Dafny characters. UTF-16 code-unit order differs only for characters outside the Basic Multilingual Plane.
- Dashboard.SortRecent: does not state that the sort is stable; only the order of the dates is stated.
- Dashboard.SortRecent, Dashboard.DashboardPage.RecentModels: invalid dates are not modelled. `timeOf` always gives an integer. In JavaScript an invalid date has time NaN, the comparator then gives NaN, and the order `sort` produces is implementation-defined, so no order is promised for such models.
- ModelComparison.FetchAll: the backend is a function of the id, so a repeated id gets the same answer both times; different answers to two requests for the same id are not modelled.
- Outside api.ts:
  - The workspace API, `semanticSearch` and the three-argument `autofill` that the pages call are not declared in `src/services/api.ts`. They appear only as the requests they send (`Call` constructors).
  - `authApi.updateUser` and `modelInsightApi.getInsights` are used by none of the modelled pages.
- File uploads for autofill and `console` logging are not modelled.
- Plain field setters (search box, filters, form fields other than tags, links and parameters) are not modelled.
- The type and status enumerations are kept as strings, because the two pages list different values.
- Dashboard.GetModelStats: the counts are a map, not a plain JavaScript object. A status or type equal to an `Object.prototype` key such as "constructor" would count wrongly in JavaScript, and the model does not show this. The enumerations never contain such a value.

## Findings

| source | as written | input that shows it | evidently intended | confidence | as-written member | corrected member |
|---|---|---|---|---|---|---|
| src/pages/ModelList.tsx:319-326 | the link box is held empty, so its change handler sees one keystroke at a time and turns each into a chip | type "ab" into the link box: two chips "a" and "b" | a link typed whole becomes one chip when Enter or Add is pressed | not executed | ModelList.TypingSplitsLink | ModelList.AddLinkWhole |
| src/pages/ModelList.tsx:219-224 | the checkbox handler calls `fetchModels` from the render before the change, so the fetch still sees the old, unchecked flag | check the box with the query "llama": a keyword search is sent | checking the box runs a semantic search of the query | not executed | ModelList.ToggleFetchStale | ModelList.ToggleFetchSemantic |
