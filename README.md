# Recipe book client, modelled in Dafny

chef-gui is a single-page browser client for a recipe backend. It has two screens:

- a **list** of recipe cards. The list is searched by title, dish type and tags, and a search is debounced.
- a **detail** page for one recipe. It has a gallery, a cook counter, a deletion that must be confirmed, and a photo upload.

One dialog serves to create a recipe and to edit one. The dialog and the list's tag filter both suggest tags from the backend while their dropdown is open.

This project models that client as it is written:

- **API client** (`recipe_api.dfy`). Every operation sends exactly one request: a method, a path, query pairs and a body. A response becomes a value or an `HTTP <status>` error. Query strings are built the way `URLSearchParams` builds them, with `set` and `append`. The route table is proved unambiguous for well-formed identifiers.
- **Image codec** (`image.dfy`). It turns a serialised MongoDB `Binary` into a JPEG data URL. The data is one base64 string or a list of chunks.
- **Form controller** (`add_recipe_dialog.dfy`). This is the create/edit dialog. It is a class whose fields are the component's state hooks. Each handler is a method whose `ensures` gives the complete new state. The submitted record is a pure function, `Payload`.
- **Tag controllers** (`tag_input.dfy`, `tag_filter.dfy`):
  - The debounced suggestion lookup. Its pending timer is a field, and an invariant proves that the timer always belongs to the current input.
  - The filter that hides tags already chosen.
  - The list page's multi-select tag filter.
- **List controller** (`recipe_list_page.dfy`):
  - Which request the debounced search sends, with an invariant that the pending request always matches the current criteria.
  - Which content panel shows: exactly one at a time.
  - The Polish count words and the card contents.
- **Detail controller** (`recipe_detail_page.dfy`):
  - Fetch, cook, delete with confirmation, photo upload and edit, each as a class method.
  - The gallery, as a filter-map over the image blobs.
  - The preparation paragraphs.
- **Navigation** (`app.dfy`): the list/detail switch.

Helper modules:

- `text.dfy` holds JavaScript's `trim` with its exact whitespace set, `split`/`join` on one character, and decimal rendering.
- `seqs.dfy` holds `filter` and flat-map with their laws.
- `wrappers.dfy` holds `Option` and `Result`.

Asynchronous handlers are split in two:

- a `Start…`/`Begin…`/`Fire…` method does the synchronous part and returns the `ApiCall` it sends;
- a `Finish…`/`Receive…` method takes the outcome as a `Result<…, ApiError>`.

The network, timers and the DOM therefore become parameters. `ApiError` is either a non-ok status or an error thrown by `fetch` or by JSON decoding. The message shown for it is `ErrorMessage`.

## Model

| member | source | states |
|---|---|---|
| Text.SkipSpace | src/components/AddRecipeDialog.tsx:101 | the scan stops at the first non-whitespace character at or after the start, or at the end, having passed only whitespace |
| Text.BackSpace | src/components/AddRecipeDialog.tsx:101 | the scan backwards stops after the last non-whitespace character, having passed only whitespace |
| Text.Trim | src/components/AddRecipeDialog.tsx:101 | `String.prototype.trim`: the result is a contiguous slice of the input, only whitespace lies around it, and no whitespace is at either end |
| Text.BlankIffAllSpace | src/components/AddRecipeDialog.tsx:121 | a string trims to `""` exactly when all of its characters are whitespace |
| Text.TrimIdempotent | src/components/TagFilter.tsx:20 | trimming twice equals trimming once |
| Text.Concat | src/utils/image.ts:10 | `join('')`: the result is at least as long as the first chunk (fixed fully by `ConcatSingle` and `ConcatAppend`) |
| Text.ConcatSingle | src/utils/image.ts:10 | a single chunk joins to itself; with `ConcatAppend` this fixes the join of every list: each chunk unchanged, in order, with no separator |
| Text.ConcatAppend | src/utils/image.ts:10 | joining distributes over concatenation of chunk lists |
| Text.ConcatEmpty | src/utils/image.ts:10-11 | the join is empty exactly when every chunk is empty |
| Text.Split | src/pages/RecipeDetailPage.tsx:248 | `split('\n')` gives at least one piece, and no piece contains the separator |
| Text.SplitJoin | src/pages/RecipeDetailPage.tsx:248 | joining the pieces with the separator gives back the original text |
| Text.JoinSplit | src/pages/RecipeDetailPage.tsx:248 | splitting lines joined by the separator gives back the lines |
| Text.DecimalString | src/api/recipeApi.ts:7 | `${status}` renders a non-empty string of decimal digits with no leading zero (only 0 itself starts with `0`) |
| Text.DecimalRoundTrip | src/api/recipeApi.ts:7 | reading the rendered digits back gives the number |
| RecipeTypes.ParseDishType | src/types/recipe.ts:1 | a parsed category's JSON name is the parsed string |
| RecipeTypes.DishTypeNames | src/components/AddRecipeDialog.tsx:11 | every category's name parses back to it, and the selector lists all four |
| Image.Payload | src/utils/image.ts:10 | a single string is used as it is; a chunk array joins to the empty string exactly when every chunk is empty |
| Image.BinaryToDataUrl | src/utils/image.ts:8-13 | no URL exactly when the data is absent or its payload is empty; otherwise the URL is the JPEG data-URL prefix followed by the payload |
| Image.DataUrlPayload | src/utils/image.ts:12 | a found payload is what follows the prefix |
| Image.DataUrlRoundTrip | src/utils/image.ts:8-13 | a non-empty base64 string becomes prefix + string, and stripping the prefix gives it back |
| Image.NoDataNoUrl | src/utils/image.ts:9-11 | absent data and an empty string give no URL |
| Image.ChunksEqualJoined | src/utils/image.ts:10 | a chunked blob decodes exactly like the single string of its joined chunks |
| Image.ChunkBoundariesIrrelevant | src/utils/image.ts:10 | regrouping the chunks does not change the URL |
| Image.ChunkExample | src/utils/image.ts:10-12 | `["Zm9v","YmFy"]` and `"Zm9vYmFy"` give the same URL, `data:image/jpeg;base64,Zm9vYmFy` |
| Image.EmptyChunksNoUrl | src/utils/image.ts:10-11 | an empty chunk list, or one of empty chunks, gives no URL |
| Image.FirstImageUrl | src/utils/image.ts:16-19 | nothing for an absent or empty list; otherwise the first blob's URL |
| Image.FirstImageIgnoresRest | src/utils/image.ts:18 | blobs after the first never change the result |
| RecipeApi.SetPair | src/api/recipeApi.ts:17-18 | after `URLSearchParams.set` the name has exactly that one value, and every other name keeps its values |
| RecipeApi.ReplaceNamedGetAll | src/api/recipeApi.ts:17-18 | replacing the named pairs leaves the name exactly the one new value when it was present and not yet seen, and every other name reads back as before |
| RecipeApi.GetAllCons | src/api/recipeApi.ts:19 | a list that starts with a pair reads back that pair's value (when the name matches) before the rest's |
| RecipeApi.GetAllAppend | src/api/recipeApi.ts:19 | the values read back for a name distribute over concatenated pair lists |
| RecipeApi.SearchParams.Set | src/api/recipeApi.ts:17 | the pairs become `SetPair` of the old pairs |
| RecipeApi.SearchParams.Append | src/api/recipeApi.ts:19 | one pair is appended at the end |
| RecipeApi.FilterPairs | src/api/recipeApi.ts:16-18 | at most two pairs, a `title` pair exactly for a non-empty title and a `typeOfDish` pair exactly for a non-empty type, never with an empty value |
| RecipeApi.FindQuery | src/api/recipeApi.ts:16-19 | only `title`, `typeOfDish` and `tags` pairs, at most two more than the tags, and only tags may carry an empty value |
| RecipeApi.TagQuery | src/api/recipeApi.ts:53-54 | at most one pair, present exactly for a truthy argument and carrying it under `tagName` |
| RecipeApi.TagPairs | src/api/recipeApi.ts:19 | one `tags` pair per tag, position by position |
| RecipeApi.SetFilters | src/api/recipeApi.ts:16-18 | on an empty object, the two conditional sets leave exactly the title and type pairs `FindQuery` starts with |
| RecipeApi.SetFresh | src/api/recipeApi.ts:17-18 | setting a name that is absent appends one pair at the end |
| RecipeApi.FindQueryGetAll | src/api/recipeApi.ts:16-19 | every name reads back from the query as the title value, the type value and the tags contribute to it, in that order |
| RecipeApi.BuildFindQuery | src/api/recipeApi.ts:16-19 | the imperative query building (two conditional sets, then an append loop) yields `FindQuery` |
| RecipeApi.FindQueryReadsBack | src/api/recipeApi.ts:16-19 | the search query carries a truthy title once, a truthy dish type once, every tag in order, and no other name |
| RecipeApi.TagPairsReadBack | src/api/recipeApi.ts:19 | the tag pairs read back as exactly the tag list under `tags` and nothing under any other name |
| RecipeApi.FindQueryOrder | src/api/recipeApi.ts:16-19 | the pairs come in the order title, typeOfDish, tags |
| RecipeApi.BuildTagQuery | src/api/recipeApi.ts:53-54 | the `findTags` query has a `tagName` pair only for a truthy argument, holds at most one pair, and equals `TagQuery` |
| RecipeApi.TargetRoundTrip | src/api/recipeApi.ts:5-79 | for valid identifiers, parsing the method and path of any endpoint gives back that endpoint and its identifier |
| RecipeApi.Target | src/api/recipeApi.ts:5-79 | every endpoint path lies under the `/api/` base, and exactly the four reads use GET |
| RecipeApi.RequestOf | src/api/recipeApi.ts:5-79 | only search and tag lookup carry a query; exactly create, update and add-photo carry a body |
| RecipeApi.RequestAddressesCall | src/api/recipeApi.ts:5-79 | every call's request addresses that call's endpoint and identifier |
| RecipeApi.Complete | src/api/recipeApi.ts:7-8 | success exactly for a 200-299 response, with the body as value; a non-ok status gives `HttpStatus(status)`; a rejection stays a thrown error |
| RecipeApi.ErrorMessage | src/api/recipeApi.ts:7 | the message is `HTTP ` followed by the decimal rendering of the status; the status can be read back from the `HTTP <status>` message, so different statuses give different messages; a thrown error keeps its own message |
| TagInput.TagName | src/components/TagFilter.tsx:20 | the trimmed text or `undefined`: none exactly for blank text, otherwise the trimmed, non-blank text |
| TagInput.Reschedule | src/components/TagFilter.tsx:15-27 | after the effect re-runs, a lookup is pending exactly when the dropdown is open, and it is for the current trimmed text |
| TagInput.LookupCall | src/components/TagFilter.tsx:18-20 | a firing timer sends `findTags` with its tag name; with no timer nothing is sent |
| TagInput.Unchosen | src/components/TagFilter.tsx:51 | a tag is offered exactly when it was suggested and has not been chosen; the first one offered is the earliest unchosen suggestion |
| TagInput.UnchosenAppend | src/components/TagFilter.tsx:51 | the filter works piecewise over concatenated suggestion lists, so order and repeats are kept |
| TagInput.UnchosenSingle | src/components/TagFilter.tsx:51 | one suggestion survives exactly when it is not chosen; with `UnchosenAppend` this fixes the result for every list |
| Seqs.FilterFirst | src/components/TagFilter.tsx:70-72 | the first survivor of a filter is the earliest kept element, every element before it being rejected |
| TagInput.Settle | src/components/TagFilter.tsx:19-24 | a failed lookup empties the suggestions; a successful one is `Unchosen` of the results: the unchosen ones, in the server's order |
| TagInput.WithoutTag | src/components/TagFilter.tsx:46-48 | a tag stays exactly when it differs from the removed one |
| TagInput.WithoutTagKeepsOrder | src/components/TagFilter.tsx:47 | removal works piecewise, so order is kept, and a list without the tag is unchanged |
| TagInput.WithoutTagKeepsDistinct | src/components/AddRecipeDialog.tsx:113-115 | removal keeps a duplicate-free list duplicate-free |
| TagInput.AppendFreshKeepsDistinct | src/components/AddRecipeDialog.tsx:102 | appending an absent tag keeps a list duplicate-free |
| TagFilterView.TagFilter.constructor | src/components/TagFilter.tsx:10-12 | empty text, no suggestions, closed, no timer |
| TagFilterView.TagFilter.Visible | src/components/TagFilter.tsx:51 | visible suggestions are exactly the fetched ones not selected, and the first visible one is the earliest unselected suggestion |
| TagFilterView.TagFilter.Type | src/components/TagFilter.tsx:63-66 | stores the text and opens; the timer restarts for the new text when a dependency changed |
| TagFilterView.TagFilter.Focus | src/components/TagFilter.tsx:67 | opens the dropdown; a timer starts if it was closed |
| TagFilterView.TagFilter.ClickOutside | src/components/TagFilter.tsx:29-38 | closes the dropdown and cancels the timer |
| TagFilterView.TagFilter.SelectTag | src/components/TagFilter.tsx:40-44 | hands `selected + [tag]` to the parent and clears the text; the dropdown stays as it was |
| TagFilterView.TagFilter.RemoveTag | src/components/TagFilter.tsx:46-48 | hands the selection without the tag to the parent |
| TagFilterView.TagFilter.ClearAll | src/components/TagFilter.tsx:112 | hands the empty selection to the parent |
| TagFilterView.TagFilter.KeyDown | src/components/TagFilter.tsx:68-74 | Escape closes; Enter selects the first visible suggestion if there is one, clears the text and restarts the lookup for the empty text if open, and otherwise changes nothing; other keys change nothing |
| TagFilterView.TagFilter.FireLookup | src/components/TagFilter.tsx:18-20 | sends the pending lookup, which is only ever present while the dropdown is open and is always for the current text |
| TagFilterView.TagFilter.ReceiveSuggestions | src/components/TagFilter.tsx:19-24 | the suggestions become `Settle` of the outcome |
| TagFilterView.EnterKeepsSelectionDistinct | src/components/TagFilter.tsx:70-72 | Enter never selects a tag that is already selected |
| RecipeDialog.InitialIngredients | src/components/AddRecipeDialog.tsx:31-33 | the recipe's rows if it has at least one, otherwise one blank row; never empty |
| Seqs.RemoveAt | src/components/AddRecipeDialog.tsx:92-94 | exactly the row at the index is removed and the rest keep their order; an index out of range changes nothing |
| RecipeDialog.WithField | src/components/AddRecipeDialog.tsx:97 | only the chosen field of the row changes |
| RecipeDialog.UpdateRow | src/components/AddRecipeDialog.tsx:96-98 | same length; only the row at the index changes, in one field |
| RecipeDialog.AddedTags | src/components/AddRecipeDialog.tsx:100-105 | old tags stay first and in order; a blank input adds nothing; otherwise the trimmed text is present afterwards; at most one tag is added; duplicate-freedom is kept |
| RecipeDialog.SelectedTags | src/components/AddRecipeDialog.tsx:107-111 | the tag is present afterwards, at most one tag is added, the old tags stay first, and duplicate-freedom is kept |
| RecipeDialog.AddTagIdempotent | src/components/AddRecipeDialog.tsx:102-108 | adding a tag already present changes nothing, so adding twice equals adding once |
| RecipeDialog.Payload | src/components/AddRecipeDialog.tsx:125-133 | the title is trimmed; the rows sent are the rows with a non-blank name, in their order and with their repeats, and there are no ingredients when none are named; there are no tags for an empty list; the content is trimmed and absent when blank; the dish type is as chosen; there are never images or a cook count |
| RecipeDialog.PayloadRowsInOrder | src/components/AddRecipeDialog.tsx:125-131 | the rows sent for a concatenated list are those sent for its first part followed by those for the rest |
| RecipeDialog.PayloadExample | src/components/AddRecipeDialog.tsx:125-131 | `[("", "1"), ("Salt", "2tsp")]` sends only the Salt row unchanged; two unnamed rows send no ingredients |
| RecipeDialog.SaveCall | src/components/AddRecipeDialog.tsx:134-138 | edit mode sends an update under the payload's uuid; create mode sends a create |
| RecipeDialog.AddRecipeDialog.constructor | src/components/AddRecipeDialog.tsx:28-39 | every field starts from the edited recipe, or is empty in create mode |
| RecipeDialog.AddRecipeDialog.VisibleSuggestions | src/components/AddRecipeDialog.tsx:117 | a suggestion is visible exactly when it is not already a tag, and the first visible one is the earliest such suggestion |
| RecipeDialog.AddRecipeDialog.CanSubmit | src/components/AddRecipeDialog.tsx:309 | the submit button is enabled exactly when not saving and the title has a non-whitespace character |
| RecipeDialog.AddRecipeDialog.SetTitle | src/components/AddRecipeDialog.tsx:169 | only the title changes |
| RecipeDialog.AddRecipeDialog.SetTypeOfDish | src/components/AddRecipeDialog.tsx:180 | only the dish type changes |
| RecipeDialog.AddRecipeDialog.SetContent | src/components/AddRecipeDialog.tsx:298 | only the content changes |
| RecipeDialog.AddRecipeDialog.AddIngredient | src/components/AddRecipeDialog.tsx:88-90 | one blank row is appended and nothing else changes |
| RecipeDialog.AddRecipeDialog.RemoveIngredient | src/components/AddRecipeDialog.tsx:92-94 | the rows become `RemoveAt` of the old rows and nothing else changes |
| RecipeDialog.AddRecipeDialog.UpdateIngredient | src/components/AddRecipeDialog.tsx:96-98 | the rows become `UpdateRow` and nothing else changes |
| RecipeDialog.AddRecipeDialog.TypeTag | src/components/AddRecipeDialog.tsx:237-240 | stores the text and opens the dropdown; a changed dependency restarts the timer; the invariant is kept |
| RecipeDialog.AddRecipeDialog.FocusTag | src/components/AddRecipeDialog.tsx:241 | opens the dropdown, and a timer starts if it was closed |
| RecipeDialog.AddRecipeDialog.ClickOutsideTags | src/components/AddRecipeDialog.tsx:73-82 | closes the dropdown and cancels the timer |
| RecipeDialog.AddRecipeDialog.AddTag | src/components/AddRecipeDialog.tsx:100-105 | the tags become `AddedTags`; the text is cleared and the dropdown closes either way |
| RecipeDialog.AddRecipeDialog.SelectSuggestedTag | src/components/AddRecipeDialog.tsx:107-111 | the tags become `SelectedTags`; the text is cleared and the dropdown closes |
| RecipeDialog.AddRecipeDialog.RemoveTag | src/components/AddRecipeDialog.tsx:113-115 | the tags become `WithoutTag`, and the lookup timer restarts |
| RecipeDialog.AddRecipeDialog.Escape | src/components/AddRecipeDialog.tsx:44-57 | an open dropdown is only closed; with the dropdown closed the dialog asks to close |
| RecipeDialog.AddRecipeDialog.Enter | src/components/AddRecipeDialog.tsx:242-249 | empty text with a visible suggestion selects the first suggestion; every other case is `addTag` |
| RecipeDialog.AddRecipeDialog.FireTagLookup | src/components/AddRecipeDialog.tsx:59-65 | sends the pending lookup, only while the dropdown is open, and always for the current text |
| RecipeDialog.AddRecipeDialog.ReceiveTagSuggestions | src/components/AddRecipeDialog.tsx:63-68 | the suggestions become `Settle` of the outcome |
| RecipeDialog.AddRecipeDialog.BeginSubmit | src/components/AddRecipeDialog.tsx:119-138 | a blank title sends nothing and changes nothing; otherwise saving starts, the error clears, and `SaveCall` of `Payload` is sent, under the edited recipe's uuid or the fresh one; whenever the button is enabled, a request is sent |
| RecipeDialog.AddRecipeDialog.FinishSubmit | src/components/AddRecipeDialog.tsx:139-144 | success reports saved; failure records the message; saving ends and no field is cleared |
| ListPage.PluralFormOf | src/pages/RecipeListPage.tsx:28-38 | singular exactly for 1, the second form for other counts below 5, the third form from 5 up |
| ListPage.PluralRecipes | src/pages/RecipeListPage.tsx:28-32 | each of the three words is chosen exactly on its range of counts |
| ListPage.PluralIngredients | src/pages/RecipeListPage.tsx:34-38 | each of the three words is chosen exactly on its range of counts |
| ListPage.NonEmpty | src/pages/RecipeListPage.tsx:58-59 | an empty string becomes `undefined`: none exactly for the empty string |
| ListPage.ListCall | src/pages/RecipeListPage.tsx:56-64 | a search exactly when some criterion is non-empty, carrying only the non-empty ones; list-all otherwise |
| ListPage.SearchQueryCarriesCriteria | src/pages/RecipeListPage.tsx:56-61 | a search's query reads back the non-empty title and type once each, and every selected tag in order |
| ListPage.SoupSearch | src/pages/RecipeListPage.tsx:56-61 | title "soup" alone sends a search whose only pair is `title=soup` |
| ListPage.Panels | src/pages/RecipeListPage.tsx:120-184 | each panel shows exactly under its condition; when loading and a raised error never coincide, exactly one panel shows |
| ListPage.DishLabel | src/pages/RecipeListPage.tsx:14-19 | every category has a non-empty label |
| ListPage.ResultsLabel | src/pages/RecipeListPage.tsx:138-140 | the count line is the decimal count, a space, and the plural word for the count |
| ListPage.CardTags | src/pages/RecipeListPage.tsx:165-173 | a card shows a prefix of the tags: all of them, or exactly the first three |
| ListPage.IngredientsLabel | src/pages/RecipeListPage.tsx:175-179 | a footer exactly when the recipe has ingredients; it reads count + plural word |
| ListPage.RecipeListPage.constructor | src/pages/RecipeListPage.tsx:41-48 | starts loading with nothing found; the mount effect's list-all request is scheduled |
| ListPage.RecipeListPage.Shown | src/pages/RecipeListPage.tsx:120-184 | under the invariant, exactly one content panel shows |
| ListPage.RecipeListPage.SetTitle | src/pages/RecipeListPage.tsx:95-98 | a different title reschedules the request for the new criteria; the same title changes nothing |
| ListPage.RecipeListPage.SetTypeOfDish | src/pages/RecipeListPage.tsx:106 | a different type reschedules the request for the new criteria; the same type changes nothing |
| ListPage.RecipeListPage.SetSelectedTags | src/pages/RecipeListPage.tsx:116 | the new selection always reschedules the request |
| ListPage.RecipeListPage.OpenDialog | src/pages/RecipeListPage.tsx:85 | only the dialog flag changes |
| ListPage.RecipeListPage.CloseDialog | src/pages/RecipeListPage.tsx:189 | only the dialog flag changes |
| ListPage.RecipeListPage.OnSaved | src/pages/RecipeListPage.tsx:190-193 | the dialog closes, the refresh key grows by one, and a re-fetch for the current criteria is scheduled |
| ListPage.RecipeListPage.FireFetch | src/pages/RecipeListPage.tsx:50-64 | the scheduled request, always the one for the current criteria, goes out with loading on and the error cleared |
| ListPage.RecipeListPage.FinishFetch | src/pages/RecipeListPage.tsx:65-70 | success replaces the list; failure keeps it and records the message; loading ends |
| DetailPage.DataUrls | src/pages/RecipeDetailPage.tsx:101-103 | at most one picture per blob, and every picture is a JPEG data URL |
| Seqs.FlatMapAppend | src/pages/RecipeDetailPage.tsx:101-103 | mapping each element to a sequence and concatenating distributes over concatenation of the input |
| DetailPage.DataUrlsSingle | src/pages/RecipeDetailPage.tsx:101-103 | one blob shows exactly the URL `binaryToDataUrl` gives it, or nothing when that is null; with `DataUrlsAppend` this fixes the gallery of every list |
| DetailPage.DataUrlsAppend | src/pages/RecipeDetailPage.tsx:101-103 | the gallery of concatenated lists is the concatenation of their galleries, so order is kept |
| DetailPage.DataUrlsKeepAll | src/pages/RecipeDetailPage.tsx:103 | nothing is dropped exactly when every blob yields a URL |
| DetailPage.NoDataNoPicture | src/pages/RecipeDetailPage.tsx:103 | a single blob without data shows no picture |
| DetailPage.DataUrlsSkipEmpty | src/pages/RecipeDetailPage.tsx:103 | a blob without data is skipped without shifting the others |
| DetailPage.Gallery | src/pages/RecipeDetailPage.tsx:101 | no recipe or no image list shows no pictures; a loaded recipe shows `DataUrls` of its images, at most one per blob |
| DetailPage.DisplayedCookCount | src/pages/RecipeDetailPage.tsx:157 | the server's count, or 0 when it is absent |
| DetailPage.CookLabel | src/pages/RecipeDetailPage.tsx:159 | "raz" exactly for 1, "razy" otherwise |
| DetailPage.Paragraphs | src/pages/RecipeDetailPage.tsx:244-251 | every paragraph is a non-blank line without a newline; absent content shows none |
| DetailPage.ParagraphMembership | src/pages/RecipeDetailPage.tsx:248-249 | a line shows exactly when it is a line of the text and not blank |
| DetailPage.ParagraphsOfLines | src/pages/RecipeDetailPage.tsx:248-249 | text made of lines shows exactly the non-blank lines, untrimmed and in order |
| DetailPage.RecipeDetailPage.constructor | src/pages/RecipeDetailPage.tsx:30-40 | nothing loaded, loading, and every flag and error cleared; the mount effect's request is the first `StartFetch` |
| DetailPage.RecipeDetailPage.Images | src/pages/RecipeDetailPage.tsx:101-103 | no recipe shows no pictures; otherwise the pictures are `Gallery` of the shown recipe |
| DetailPage.RecipeDetailPage.StartFetch | src/pages/RecipeDetailPage.tsx:45-48 | loading on, error cleared, and this page's recipe is requested |
| DetailPage.RecipeDetailPage.FinishFetch | src/pages/RecipeDetailPage.tsx:49-51 | success replaces the recipe; failure keeps the stale one and records the message; loading ends |
| DetailPage.RecipeDetailPage.StartCook | src/pages/RecipeDetailPage.tsx:59-63 | cooking on, cook error cleared, increment requested |
| DetailPage.RecipeDetailPage.FinishCook | src/pages/RecipeDetailPage.tsx:64-69 | success replaces the recipe with the server's copy; failure records the cook error only; cooking ends |
| DetailPage.RecipeDetailPage.OpenEdit | src/pages/RecipeDetailPage.tsx:113 | only the edit flag changes |
| DetailPage.RecipeDetailPage.CloseEdit | src/pages/RecipeDetailPage.tsx:281 | only the edit flag changes |
| DetailPage.RecipeDetailPage.EditSaved | src/pages/RecipeDetailPage.tsx:282-285 | the dialog closes and the recipe is fetched again |
| DetailPage.RecipeDetailPage.OpenConfirm | src/pages/RecipeDetailPage.tsx:116 | only the confirmation flag changes |
| DetailPage.RecipeDetailPage.DismissConfirm | src/pages/RecipeDetailPage.tsx:290-312 | the confirmation closes unless a deletion is in flight, in which case nothing changes |
| DetailPage.RecipeDetailPage.StartDelete | src/pages/RecipeDetailPage.tsx:72-76 | deleting on, delete error cleared, deletion requested |
| DetailPage.RecipeDetailPage.FinishDelete | src/pages/RecipeDetailPage.tsx:76-81 | success navigates back and changes nothing; failure records the message and re-enables the dialog, which stays open |
| DetailPage.RecipeDetailPage.SelectPhoto | src/pages/RecipeDetailPage.tsx:84-92 | an empty choice does nothing; otherwise uploading starts and the first file is sent |
| DetailPage.RecipeDetailPage.FinishUpload | src/pages/RecipeDetailPage.tsx:92-98 | success re-fetches without touching the shown recipe; failure records the upload error; uploading ends |
| Navigation.App.constructor | src/App.tsx:9 | the application opens on the list |
| Navigation.App.SelectRecipe | src/App.tsx:14 | the detail view of the chosen recipe |
| Navigation.App.Back | src/App.tsx:16 | the list view |

## Left out

- Rendering (JSX, CSS classes, emoji, the lightbox preview and its open/close state) is not modelled. Only what decides which panels, words and pictures show is modelled.
- Timers are modelled as "one pending timer" fields (`lookup`, `pending`) that an effect re-run overwrites; the 200 ms and 350 ms delays and real time are not modelled.
- Responses arriving out of order are not modelled. Each `Finish…` method applies one outcome to the current state.
- The outside-click test (`contains` on a DOM node) is not modelled. `ClickOutside` and `ClickOutsideTags` stand for a press outside the component.
- JSON encoding and decoding, percent-encoding of query strings, and multipart form encoding are not modelled. Requests carry pairs and typed bodies.
- A failed JSON decode, like a network error, is a `Thrown` error with its message.
- `crypto.randomUUID()` is the parameter `freshUuid` of `BeginSubmit`.
- The fallback messages used when a thrown value is not an `Error` are not modelled: every failure is an `ApiError` with a message.
- The dialog's close button, overlay click and Cancel button only call the parent's `onClose`. They appear as `CloseDialog`/`CloseEdit` of the parent page and as the `close` result of `Escape`.
- The `accept` filter of the file picker (`.jpg,.jpeg,.png`) and the reset of the picker's value are browser behaviour. They are not modelled.
- `cookCount` is not declared in the `Recipe` type of `src/types/recipe.ts`, but the detail page reads it. The model gives `Recipe` an optional `cookCount`.
- The numeric `type` of a serialised `Binary` is an unbounded `int`, not a floating-point number. It is never read.
- RecipeDialog.AddRecipeDialog.BeginSubmit: like the code, it checks only the title. Blocking a second submission while one is in flight comes from the disabled submit button (`CanSubmit`), not from the handler.
- DetailPage.RecipeDetailPage.StartDelete requires an open confirmation, a loaded recipe and no deletion in flight. The button that calls it is only rendered inside that dialog and is disabled while deleting.
- Navigation: `src/App.tsx` keeps the current view in component state. It starts on the list and does not read or write the URL or browser history. The model follows that.
- The plural rule is modelled as written. Counts of 22-24 and similar take the third form.
