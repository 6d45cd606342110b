# Smash-LeetCode core, modelled in Dafny

Smash-LeetCode is a LeetCode-style practice site. It has a React client
(TypeScript, Redux Toolkit) and a FastAPI server (Python). This project models
the logic that decides what the site shows and sends, and proves properties of it.

- The problem table: filters, sorting and pages (`ProblemListView`,
  `Pagination`, `ProblemCard`, `LeetCodeSearch`).
- The request that a search sends (`Api`).
- The Redux slices that hold the results (`ProblemListSlice`, `ProblemSlice`,
  `ChatInputSlice`).
- On the server:
  - filter validation (`Service`)
  - keyset pagination, public ids, deletion and `to_dict` (`Mixins`)
  - the solution endpoint's reply cleanup and error mapping (`Solve`)
- The per-problem workspace:
  - the route that picks the table or the problem view (`LeetcodeRoute`)
  - the choice of visualizer family (`ProblemDetail`)
  - the chat input box, with its pasted contents and attached files (`ChatInputHook`, `ChatInputForm`, `PastedContent`)
  - the name/slug conversions (`Slugs`)
- The algorithm visualizer's playback controller (`Visualizer`).
- The zod schemas that describe the data (`Types`), as validators on a small
  `Json` datatype, with round-trip lemmas.
- `Text`, `Seqs` and `Wrappers` hold the shared string and sequence helpers
  and `Option`/`Result`.

Each module follows one source file. Pure logic (reducers, view
computations, schemas, string conversions) is written as functions. Each
lemma ties a function to a partner: its inverse, an invariant it keeps, or an
independent description of its result. State that the source updates in
place is a class with one method per handler or reducer case:

- the Redux stores, `Visualizer.Playback`, `ProblemListView.ProblemListController`,
  `LeetCodeSearch.SearchPanel` and `ChatInputForm.ChatInputController`;
- the server's table (`Mixins.Table`).

Each method's `ensures` gives its whole new state in terms of the pure
transition, and the lemmas state what those transitions promise. Loops in
the source are methods with loops, proved equal to the function they compute:

- the page-number strip, `Pagination.GetPageNumbers`;
- the query parameters, `Api.FetchProblemsParams`;
- the reply cleanup, `Solve.CleanReply`;
- `to_dict`, `Mixins.ToDict`.

Three behaviours of the code worth knowing:

- Autoplay stops one tick after the cursor reaches the last step, not as it
  reaches it. `Visualizer.TickTimesStops` states the code's behaviour.
- Changing a filter in the problem table does not reset the page to 1. The
  `ProblemListController` methods keep `currentPage`.
- The server returns a solution with snake_case keys (`time_complexity`, ...),
  but the client's `Solution` schema asks for camelCase ones.
  `Solve.SolutionResponseFields` proves that such a reply is refused by that schema.

## Model

| member | source | states |
|---|---|---|
| Visualizer.TransitionsKeepRange | client/src/components/leetcode/visualizer/Visualizer.tsx:316-338 | every control (step forward, step back, reset, play/pause, the comparison switch, the timer tick) keeps the cursor on a step of the sequence |
| Visualizer.Forward | client/src/components/leetcode/visualizer/Visualizer.tsx:321-325 | the forward step keeps the cursor on a step, moves it by at most one, and leaves both flags alone |
| Visualizer.Backward | client/src/components/leetcode/visualizer/Visualizer.tsx:328-332 | the backward step never goes below step 0, moves by at most one, and leaves both flags alone |
| Visualizer.Tick | client/src/components/leetcode/visualizer/Visualizer.tsx:294-301 | one tick keeps the cursor on a step; it moves exactly when not on the last step, and switches playing off exactly when playing on the last step |
| Visualizer.StepMoves | client/src/components/leetcode/visualizer/Visualizer.tsx:321-332 | step forward moves the cursor by exactly one below the last step and is a no-op on it; step back likewise above step 0; neither touches the play flag |
| Visualizer.ForwardThenBackward | client/src/components/leetcode/visualizer/Visualizer.tsx:321-332 | a forward step that was not blocked at the end is undone by one step back |
| Visualizer.ForwardTimesSaturates | client/src/components/leetcode/visualizer/Visualizer.tsx:321-325 | k presses of step forward land on min(index + k, last step) and change nothing else |
| Visualizer.TickTimesStops | client/src/components/leetcode/visualizer/Visualizer.tsx:294-301 | after k timer ticks the cursor is at min(index + k, last step): autoplay never wraps or passes the end, and the play flag is off exactly once a tick has found the cursor on the last step |
| Visualizer.ComparisonIndex | client/src/components/leetcode/visualizer/Visualizer.tsx:227-233 | the clamped index is always a valid index of a non-empty optimal track: the cursor itself while it fits, the track's last step beyond it, never above the cursor |
| Visualizer.DisabledIffNoOp | client/src/components/leetcode/visualizer/Visualizer.tsx:745-781 | the back button is disabled exactly when stepping back would change nothing (step 0), the forward button exactly when stepping forward would change nothing (last step) |
| Visualizer.StepLabel | client/src/components/leetcode/visualizer/Visualizer.tsx:807-809 | the "Step i / n" label shows 1 <= i <= n with n the number of steps |
| Visualizer.CurrentDataEntries | client/src/components/leetcode/visualizer/Visualizer.tsx:531-534 | the "Current Data" panel lists exactly the snapshot entries whose key is neither "array" nor "result", and no others |
| Visualizer.CurrentDataOrder | client/src/components/leetcode/visualizer/Visualizer.tsx:531-534 | the panel keeps the snapshot's entry order: each entry is shown exactly when its key is neither "array" nor "result", and consecutive parts of the snapshot are listed one after the other |
| Visualizer.ResultBadge | client/src/components/leetcode/visualizer/Visualizer.tsx:549-559 | the separate result badge is shown exactly when the snapshot has a truthy "result" entry, and then shows that entry |
| Visualizer.Playback.constructor | client/src/components/leetcode/visualizer/Visualizer.tsx:93-97 | a session starts on step 0, paused, with comparison off, over the given non-empty step sequences |
| Visualizer.Playback.StepForward | client/src/components/leetcode/visualizer/Visualizer.tsx:321-325 | the new playback state is the forward transition of the old one; the invariant (cursor on a step) is kept |
| Visualizer.Playback.StepBackward | client/src/components/leetcode/visualizer/Visualizer.tsx:328-332 | the new playback state is the backward transition of the old one; the invariant is kept |
| Visualizer.Playback.Reset | client/src/components/leetcode/visualizer/Visualizer.tsx:335-338 | from any state, cursor 0 and paused; the comparison switch is kept |
| Visualizer.Playback.GenerateVisualization | client/src/components/leetcode/visualizer/Visualizer.tsx:346-351 | generating is exactly a reset |
| Visualizer.Playback.TogglePlayPause | client/src/components/leetcode/visualizer/Visualizer.tsx:316-318 | flips only the play flag and never moves the cursor |
| Visualizer.Playback.ToggleComparison | client/src/components/leetcode/visualizer/Visualizer.tsx:466-466 | flips only the comparison switch |
| Visualizer.Playback.TimerTick | client/src/components/leetcode/visualizer/Visualizer.tsx:294-301 | one interval firing: advance below the last step, otherwise stop playing; the cursor never exceeds the last step |
| Visualizer.Playback.CurrentStep | client/src/components/leetcode/visualizer/Visualizer.tsx:488-489 | the step every panel draws is a step of the sequence (the index is in bounds) |
| Visualizer.Playback.ComparisonData | client/src/components/leetcode/visualizer/Visualizer.tsx:227-233 | comparison data is passed exactly while comparison is on, and is then the optimal track's snapshot at the clamped index |
| Pagination.GetPageNumbers | client/src/components/leetcode/table/Pagination.tsx:22-48 | the pushes and the for loop build exactly the strip: page 1, the optional leading "...", the window, the optional trailing "...", the last page |
| Pagination.PageNumbersOrdered | client/src/components/leetcode/table/Pagination.tsx:30-45 | the page numbers of the strip are strictly increasing and all lie in [1, totalPages], for every current page |
| Pagination.PageNumbersMembership | client/src/components/leetcode/table/Pagination.tsx:27-45 | page p is shown exactly when it is page 1 of a non-empty list, the last page of a list of several pages, or an inner page within two of the current page |
| Pagination.PageNumbersEnds | client/src/components/leetcode/table/Pagination.tsx:27-45 | a non-empty list's strip opens with page 1; a list of several pages closes with its last page |
| Pagination.CurrentPageShown | client/src/components/leetcode/table/Pagination.tsx:27-45 | a current page of the list always appears in the strip |
| Pagination.WindowAtMostFive | client/src/components/leetcode/table/Pagination.tsx:30-39 | at most five pages between the ends, all within two of the current page, and at most nine entries in all |
| Pagination.EllipsisPlacement | client/src/components/leetcode/table/Pagination.tsx:30-42 | a leading "..." appears exactly when max(2, currentPage - 2) > 2, a trailing one exactly when min(totalPages - 1, currentPage + 2) < totalPages - 1 |
| Pagination.EllipsisMeansGap | client/src/components/leetcode/table/Pagination.tsx:27-45 | two adjacent page entries are consecutive pages and every "..." sits between two pages with a gap between them, so an ellipsis always hides at least one page |
| Pagination.ShowingRange | client/src/components/leetcode/table/Pagination.tsx:57-62 | the caption's upper bound never exceeds the problem count; on a page that has rows, 1 <= X <= Y and the range spans at most one page size |
| Pagination.ShowingCountsPage | client/src/components/leetcode/table/Pagination.tsx:57-62 | the caption counts exactly the rows of the page: the page size on every page but the last, the remainder on the last |
| ProblemListSlice.CeilDiv | client/src/store/leetcode/slice.ts:29-29 | the page count is the least r with total <= r * limit: (r - 1) * limit < total <= r * limit |
| ProblemListSlice.FetchPayloadFields | client/src/store/leetcode/slice.ts:26-36 | the payload carries the reply's problems and total, the requested page and limit, and a page count just large enough to hold every problem |
| ProblemListSlice.EveryPageNonEmpty | client/src/store/leetcode/slice.ts:29-29 | every page from 1 to the page count holds at least one problem |
| ProblemListSlice.FetchSucceeds | client/src/store/leetcode/slice.ts:57-69 | pending then fulfilled installs the fetched list and count and ends idle without error, whatever came before; tags and page size untouched |
| ProblemListSlice.FetchFails | client/src/store/leetcode/slice.ts:57-73 | pending then rejected keeps the list and count shown before, ends idle, and reports the message or "Failed to fetch problems" |
| ProblemListSlice.InfoCommutes | client/src/store/leetcode/slice.ts:52-78 | the site info commutes with the start of a fetch and with setProblemList: it touches none of their fields |
| ProblemListSlice.CountRace | client/src/store/leetcode/slice.ts:61-78 | the site info and a fetched page race only on problemCnt, and the later of the two wins |
| ProblemListSlice.Reduce | client/src/store/leetcode/slice.ts:48-80 | only the site info changes the tags and page size; the list survives a pending or failed fetch and the site info; the count changes only on a fetched page or the site info; loading is set exactly by a pending fetch and kept by the two actions outside the fetch |
| ProblemListSlice.ProblemListStore.constructor | client/src/store/leetcode/slice.ts:14-21 | initial state: no list, not loading, no error, no tags, page size 40, count 0 |
| ProblemListSlice.ProblemListStore.SetList | client/src/store/leetcode/slice.ts:52-54 | changes only the list |
| ProblemListSlice.ProblemListStore.Pending | client/src/store/leetcode/slice.ts:57-60 | sets loading, clears the error, keeps the list |
| ProblemListSlice.ProblemListStore.Fulfilled | client/src/store/leetcode/slice.ts:61-69 | replaces the list and count, clears loading and error |
| ProblemListSlice.ProblemListStore.Rejected | client/src/store/leetcode/slice.ts:70-73 | clears loading and records the message or the default; the list and count stay |
| ProblemListSlice.ProblemListStore.InfoLoaded | client/src/store/leetcode/slice.ts:74-78 | changes only tags, page size and count |
| ProblemSlice.GenerateSolutionPayload | client/src/store/leetcode/problemSlice.ts:24-28 | the payload's language is the requested language whatever the reply said; code and complexities are the reply's |
| ProblemSlice.WithSolution | client/src/store/leetcode/problemSlice.ts:67-73 | the solution map gains (or overwrites) the solution's language and keeps every other language, the problem, chat and model |
| ProblemSlice.ChatLoadingFixed | client/src/store/leetcode/problemSlice.ts:43-80 | no action ever changes chatLoading |
| ProblemSlice.LoadDiscardsSolutions | client/src/store/leetcode/problemSlice.ts:48-56 | a loaded problem gets a fresh record: model gpt-4o-mini, empty chat, no solutions, whatever the previous problem had |
| ProblemSlice.SolutionFiledUnderRequest | client/src/store/leetcode/problemSlice.ts:64-75 | a generated solution is filed under the requested language; every other language keeps its solution; problem, chat and model unchanged |
| ProblemSlice.SolutionsOverwriteAndCommute | client/src/store/leetcode/problemSlice.ts:67-73 | the same language twice keeps only the later solution; two different languages commute |
| ProblemSlice.SolutionWithoutProblem | client/src/store/leetcode/problemSlice.ts:64-66 | a solution arriving with no problem loaded is dropped; only the spinner stops |
| ProblemSlice.FailuresKeepProblem | client/src/store/leetcode/problemSlice.ts:45-79 | each failure stops its own spinner, records its message or default and keeps the problem; starting a request does not clear an earlier error |
| ProblemSlice.Reduce | client/src/store/leetcode/problemSlice.ts:40-81 | no action changes chatLoading; only loading a problem can replace it, so every other action keeps the problem shown; only a failure changes the error |
| ProblemSlice.ProblemInfoStore.constructor | client/src/store/leetcode/problemSlice.ts:32-38 | initial state: no problem, no spinner, no error |
| ProblemSlice.ProblemInfoStore.FetchInfoPending | client/src/store/leetcode/problemSlice.ts:45-47 | sets only loading |
| ProblemSlice.ProblemInfoStore.FetchInfoFulfilled | client/src/store/leetcode/problemSlice.ts:48-56 | stops loading and installs the fresh record |
| ProblemSlice.ProblemInfoStore.FetchInfoRejected | client/src/store/leetcode/problemSlice.ts:57-60 | stops loading and records the error |
| ProblemSlice.ProblemInfoStore.GeneratePending | client/src/store/leetcode/problemSlice.ts:61-63 | sets only solutionLoading |
| ProblemSlice.ProblemInfoStore.GenerateFulfilled | client/src/store/leetcode/problemSlice.ts:64-75 | stops the solution spinner and files the solution when a problem is loaded |
| ProblemSlice.ProblemInfoStore.GenerateRejected | client/src/store/leetcode/problemSlice.ts:76-79 | stops the solution spinner and records the error |
| Api.Repeated | client/src/store/leetcode/api.ts:22-28 | one parameter per array element, all under the same key, in element order |
| Api.FetchProblemsParams | client/src/store/leetcode/api.ts:14-28 | the successive appends, including the two forEach loops, produce exactly the parameter list |
| Api.QueryParamsRecover | client/src/store/leetcode/api.ts:16-28 | reading the parameters back by key gives each array in order, the sort, "true" for firstQuery, and page and limit as decimal strings |
| Api.QueryParamsLayout | client/src/store/leetcode/api.ts:16-28 | order page, limit, firstQuery, acceptanceSort, difficulties, tags; one parameter per array element plus four; page and limit parse back to the numbers |
| Api.FirstQueryIgnored | client/src/store/leetcode/api.ts:18-18 | the filters' own firstQuery never reaches the request |
| Api.SearchPath | client/src/store/leetcode/api.ts:10-10 | the path is the route prefix followed by the query verbatim |
| Api.ProblemPath | client/src/store/leetcode/api.ts:46-46 | the path is the route prefix followed by the name verbatim |
| Api.ProblemPathSegments | client/src/store/leetcode/api.ts:46-46 | with no encoding, every "/" in the name becomes a path separator: the path's segments are the route's plus the name's |
| ProblemListView.AcceptanceSort | client/src/components/leetcode/table/ProblemList.tsx:57-58 | the sort direction is sent only when sorting by acceptance rate, "asc" otherwise |
| ProblemListView.SearchFilters | client/src/components/leetcode/table/ProblemList.tsx:52-60 | the filters carry the current page, page size, chosen difficulties and tags, the acceptance sort and firstQuery true |
| ProblemListView.SearchRequest | client/src/components/leetcode/table/ProblemList.tsx:51-62 | the request sent for a search carries each chosen difficulty and tag under its own key in order, the page and size, and the acceptance direction only for that sort |
| ProblemListView.CheckUpdateEffect | client/src/components/leetcode/table/ProblemList.tsx:69-73 | checking appends exactly one copy at the end; unchecking leaves no copy and keeps every other value |
| ProblemListView.CheckboxToggles | client/src/components/leetcode/table/ProblemList.tsx:156-162 | through the menu the update toggles membership and never introduces a duplicate |
| ProblemListView.CheckThenUncheck | client/src/components/leetcode/table/ProblemList.tsx:185-189 | unchecking after checking a new value restores the list |
| ProblemListView.SortValueRoundTrip | client/src/components/leetcode/table/ProblemList.tsx:198-209 | the select's value reads back as the sort it shows, "none" giving no key, for parts without "-" |
| ProblemListView.PrevPage | client/src/components/leetcode/table/ProblemList.tsx:256-256 | previous goes one page back and never below page 1 |
| ProblemListView.NextPageAsWritten | client/src/components/leetcode/table/ProblemList.tsx:281-285 | the update as written never exceeds the page count or moves more than one page |
| ProblemListView.NextPageLeavesRange | client/src/components/leetcode/table/ProblemList.tsx:281-286 | on an empty result Next is enabled on page 1 and moves the table to page 0 |
| ProblemListView.NextPage | client/src/components/leetcode/table/ProblemList.tsx:281-286 | the corrected update never leaves [1, max(1, pageCount)]; it agrees with the written update whenever the result has a page, so a page beyond a narrower result moves to the last page; it moves one page forward whenever one exists |
| ProblemListView.PageButtons | client/src/components/leetcode/table/ProblemList.tsx:256-286 | on a page of the list the corrected update equals the written one, and both buttons are disabled exactly where their update is a no-op |
| ProblemListView.ProblemListController.constructor | client/src/components/leetcode/table/ProblemList.tsx:40-48 | no difficulties, no tags, no sort, page 1 |
| ProblemListView.ProblemListController.HandleSearch | client/src/components/leetcode/table/ProblemList.tsx:51-63 | the filters sent are those of the current selection and page |
| ProblemListView.ProblemListController.DifficultyChange | client/src/components/leetcode/table/ProblemList.tsx:69-73 | updates only the difficulties, with no fetch |
| ProblemListView.ProblemListController.TagChange | client/src/components/leetcode/table/ProblemList.tsx:185-189 | updates only the tags, with no fetch |
| ProblemListView.ProblemListController.SortChange | client/src/components/leetcode/table/ProblemList.tsx:200-209 | updates only the sort, with no fetch |
| ProblemListView.ProblemListController.SetPage | client/src/components/leetcode/table/ProblemList.tsx:65-67 | moves to the page and fetches exactly when the page changed |
| ProblemListView.ProblemListController.GoPrevious | client/src/components/leetcode/table/ProblemList.tsx:256-256 | moves back a page, fetching exactly when not already on page 1 |
| ProblemListView.ProblemListController.GoNext | client/src/components/leetcode/table/ProblemList.tsx:281-285 | moves with the corrected update and fetches exactly when that moves the page, including from a page beyond the last one |
| ProblemListView.ProblemListController.SelectPage | client/src/components/leetcode/table/ProblemList.tsx:262-275 | the page select offers pages 1 to the page count and fetches exactly when the page changes |
| LeetCodeSearch.ToggleFlips | client/src/components/leetcode/search/LeetCodeSearch.tsx:74-90 | a toggle flips the value's membership, keeps every other value and keeps a duplicate-free list duplicate-free |
| LeetCodeSearch.ToggleTwiceAbsent | client/src/components/leetcode/search/LeetCodeSearch.tsx:76-78 | toggling an absent value twice restores the list |
| LeetCodeSearch.ToggleDifficulty | client/src/components/leetcode/search/LeetCodeSearch.tsx:74-81 | flips the difficulty and leaves tags and acceptance range unchanged |
| LeetCodeSearch.ToggleTag | client/src/components/leetcode/search/LeetCodeSearch.tsx:83-90 | flips the tag and leaves difficulties and acceptance range unchanged |
| LeetCodeSearch.PopularTags | client/src/components/leetcode/search/LeetCodeSearch.tsx:247-247 | the popular tags are the first five available tags, or all of them when fewer |
| LeetCodeSearch.SearchPanel.constructor | client/src/components/leetcode/search/LeetCodeSearch.tsx:39-44 | no difficulties, no tags, acceptance range 0 to 100, no available tags |
| LeetCodeSearch.SearchPanel.TagsLoaded | client/src/components/leetcode/search/LeetCodeSearch.tsx:53-54 | the available tags are the fetched tags' names in order |
| LeetCodeSearch.SearchPanel.DifficultyChange | client/src/components/leetcode/search/LeetCodeSearch.tsx:74-81 | the filters become the toggled filters |
| LeetCodeSearch.SearchPanel.TagChange | client/src/components/leetcode/search/LeetCodeSearch.tsx:83-90 | the filters become the toggled filters |
| LeetCodeSearch.SearchPanel.ClearFilters | client/src/components/leetcode/search/LeetCodeSearch.tsx:92-98 | the filters return to the initial state, and the clear button is hidden |
| ChatInputSlice.ResetKeepsChoices | client/src/store/chat-input/slice.ts:37-40 | reset empties text and pasted contents, keeps model and prompt type, and is idempotent |
| ChatInputSlice.SettersCommute | client/src/store/chat-input/slice.ts:24-40 | setters of different fields commute, and model and prompt type survive a reset |
| ChatInputSlice.Reduce | client/src/store/chat-input/slice.ts:20-42 | only selectModel changes the model, only setPromptType the prompt type, and reset empties the draft and pasted contents |
| ChatInputSlice.ChatInputStore.constructor | client/src/store/chat-input/slice.ts:13-18 | empty draft, no pasted contents, model gpt-4o-mini, prompt type "teacher" |
| ChatInputSlice.ChatInputStore.SelectModelAction | client/src/store/chat-input/slice.ts:24-26 | changes only the model |
| ChatInputSlice.ChatInputStore.SetTextAction | client/src/store/chat-input/slice.ts:27-29 | changes only the text |
| ChatInputSlice.ChatInputStore.SetPastedContentsAction | client/src/store/chat-input/slice.ts:30-32 | replaces only the pasted list |
| ChatInputSlice.ChatInputStore.SetPromptTypeAction | client/src/store/chat-input/slice.ts:34-36 | changes only the prompt type |
| ChatInputSlice.ChatInputStore.ResetAction | client/src/store/chat-input/slice.ts:37-40 | the reset transition |
| ChatInputHook.AddPasted | client/src/store/chat-input/hook.ts:48-58 | exactly one item with the text, fresh id and time appended at the end; existing items kept in order |
| ChatInputHook.RemovePasted | client/src/store/chat-input/hook.ts:60-69 | every item with the id dropped; every other item kept |
| ChatInputHook.RemoveAbsentId | client/src/store/chat-input/hook.ts:63-65 | removing an id no item carries changes nothing |
| ChatInputHook.RemovePastedConcat | client/src/store/chat-input/hook.ts:63-65 | removal distributes over concatenation, so kept items stay in order |
| ChatInputHook.AddThenRemove | client/src/store/chat-input/hook.ts:50-65 | pasting with a fresh id and removing that id restores the list |
| ChatInputHook.HelpersOnlyTouchList | client/src/store/chat-input/hook.ts:48-73 | dispatched through the store each helper changes only the pasted list; clearing empties it |
| ChatInputForm.SendDisabledIffRefused | client/src/components/llm/ChatInput.tsx:172-177 | the send button is disabled exactly when a submit would be refused |
| ChatInputForm.DropEmpty | client/src/components/llm/ChatInput.tsx:70-70 | the parts kept are non-empty parts of the input and every non-empty part is kept; DropEmptyConcat and DropEmptyKeepsNonEmpty fix their order and multiplicity |
| ChatInputForm.DropEmptyConcat | client/src/components/llm/ChatInput.tsx:70-70 | filtering a concatenation filters each part in place, so kept parts stay in order and are not duplicated |
| ChatInputForm.DropEmptyKeepsNonEmpty | client/src/components/llm/ChatInput.tsx:70-70 | a list with no empty part is kept whole |
| ChatInputForm.ComposeMessage | client/src/components/llm/ChatInput.tsx:66-71 | without pasted contents the message is the trimmed draft |
| ChatInputForm.MessageParts | client/src/components/llm/ChatInput.tsx:66-71 | the message is the trimmed draft when non-blank, then the non-empty pasted texts in order, joined by blank lines; with no empty part every part is sent |
| ChatInputForm.ContentTexts | client/src/components/llm/ChatInput.tsx:68-68 | the texts of the pasted contents, one per item, in order |
| ChatInputForm.MessageEmptyIff | client/src/components/llm/ChatInput.tsx:66-71 | the message is empty exactly when the trimmed draft and every pasted text are empty |
| ChatInputForm.MessageShape | client/src/components/llm/ChatInput.tsx:66-71 | without pasted contents the message is the trimmed draft; a non-blank draft opens the message |
| ChatInputForm.RemoveAtSlices | client/src/components/llm/ChatInput.tsx:117-119 | removing a file drops exactly that position, and nothing for a position outside the list |
| ChatInputForm.ChatInputController.constructor | client/src/components/llm/ChatInput.tsx:44-45 | no attached files |
| ChatInputForm.ChatInputController.TextChanged | client/src/components/llm/ChatInput.tsx:89-90 | the draft becomes the textarea value |
| ChatInputForm.ChatInputController.Paste | client/src/components/llm/ChatInput.tsx:97-103 | a paste longer than 1000 characters is diverted to the pasted contents; any other is left to the textarea |
| ChatInputForm.ChatInputController.FilesChosen | client/src/components/llm/ChatInput.tsx:111-115 | chosen files are appended in order; no selection changes nothing |
| ChatInputForm.ChatInputController.RemoveFile | client/src/components/llm/ChatInput.tsx:117-119 | the file at the position is removed |
| ChatInputForm.ChatInputController.Submit | client/src/components/llm/ChatInput.tsx:55-80 | sends exactly when the guard allows, the composed message with the model, prompt type and files; resets the draft only when sending succeeded |
| ChatInputForm.ChatInputController.Unmount | client/src/components/llm/ChatInput.tsx:49-53 | unmounting resets the draft |
| PastedContent.FirstLine | client/src/components/llm/PastedContent.tsx:63-64 | the trimmed first line holds no newline |
| PastedContent.Prefix | client/src/components/llm/PastedContent.tsx:66-66 | substring(0, n) is a prefix of length n when n is in range |
| PastedContent.TruncateText | client/src/components/llm/PastedContent.tsx:62-67 | the preview is one line; the trimmed first line when it fits, otherwise its first maxLength characters and "...", maxLength + 3 in all |
| PastedContent.TruncateIdempotent | client/src/components/llm/PastedContent.tsx:62-67 | truncating a preview again changes nothing |
| PastedContent.TruncateByFirstLine | client/src/components/llm/PastedContent.tsx:62-64 | the preview depends only on the trimmed first line |
| PastedContent.Chips | client/src/components/llm/PastedContent.tsx:14-31 | nothing is rendered without pasted contents; otherwise one chip per item, in order, with its 40-character preview |
| Slugs.QuestionName | client/src/components/leetcode/utils.ts:1-6 | same length, every space replaced by an underscore and every other character kept |
| Slugs.QuestionTitle | client/src/components/leetcode/utils.ts:8-13 | same length and no underscore left |
| Slugs.ServerName | server/src/problems/handler.py:38-38 | the server decodes a segment exactly as the client's title conversion does |
| Slugs.QuestionNameHasNoSpace | client/src/components/leetcode/utils.ts:2-3 | a converted name has no space |
| Slugs.NameRoundTrip | client/src/components/leetcode/utils.ts:1-13 | name to segment and back is the identity exactly for names without an underscore, on the client and on the server |
| Slugs.TitleRoundTrip | client/src/components/leetcode/utils.ts:1-13 | segment to name and back is the identity exactly for segments without a space |
| LeetcodeRoute.ProblemName | client/src/components/leetcode/Leetcode.tsx:12-15 | the extracted name never holds "/" |
| LeetcodeRoute.ExactlyOneView | client/src/components/leetcode/Leetcode.tsx:19-31 | the two views never render together, and once showProblems mirrors the name exactly one renders, the detail exactly when a name is present |
| LeetcodeRoute.TrailingSlash | client/src/components/leetcode/Leetcode.tsx:13-14 | a path ending in "/" names no problem |
| LeetcodeRoute.PathNamesProblem | client/src/components/leetcode/Leetcode.tsx:12-15 | the paths the client builds name the problem they were built from, when it has no "/" |
| ProblemDetail.LowerNames | client/src/components/leetcode/questions/ProblemDetail.tsx:48-48 | the lower-cased tag names, one per tag, in order |
| ProblemDetail.DetermineAlgorithmType | client/src/components/leetcode/questions/ProblemDetail.tsx:45-46 | "array" while no problem is loaded |
| ProblemDetail.ChoiceByPriority | client/src/components/leetcode/questions/ProblemDetail.tsx:50-59 | the chosen family is the highest-priority one some tag selects, and "array" only when none does |
| ProblemDetail.CaseInsensitive | client/src/components/leetcode/questions/ProblemDetail.tsx:48-48 | tags differing only in letter case choose the same family |
| ProblemDetail.SendQuestion | client/src/components/leetcode/questions/ProblemDetail.tsx:62-68 | a question is sent exactly when it has a non-whitespace character; a sent question clears the box, an ignored one stays |
| ProblemCard.RowNumbersMatchCaption | client/src/components/leetcode/table/ProblemCard.tsx:83-83 | a page's rows are numbered from the caption's first number to its last, and numbering continues across pages |
| ProblemCard.VisibleTags | client/src/components/leetcode/table/ProblemCard.tsx:99-100 | at most the first two tags are shown, all of them when there are two or fewer |
| ProblemCard.TagsAccountedFor | client/src/components/leetcode/table/ProblemCard.tsx:109-116 | the "+n" badge appears exactly when a tag is hidden, and shown tags plus the badge count every tag |
| ProblemCard.StylePerDifficulty | client/src/components/leetcode/table/ProblemCard.tsx:32-58 | Easy green, Medium yellow, Hard red, and zinc exactly for a string that is not a difficulty |
| ProblemCard.NavigationPath | client/src/components/leetcode/table/ProblemCard.tsx:27-29 | the destination lies under "/leetcode/" |
| ProblemCard.NavigationNamesRow | client/src/components/leetcode/table/ProblemCard.tsx:27-29 | the problems page reads the row's slug back from the destination path |
| Colors.ScoreBands | client/src/components/leetcode/analyzer/colors.ts:8-13 | the bands are [90, ∞), [70, 90), [50, 70), below 50, and a higher score never lands in a lower band |
| Colors.ComplexityExactMatch | client/src/components/leetcode/analyzer/colors.ts:1-5 | only the exact strings "O(1)", "O(n)", "O(n^2)" get a colour; "O(logn)" and "O(N)" get the default |
| Types.DifficultyValidity | client/src/store/leetcode/type.ts:3-3 | a difficulty is valid exactly as "Easy", "Medium" or "Hard", and each reads back as itself |
| Types.ModelValidity | client/src/store/leetcode/type.ts:5-10 | exactly the four fixed names are models, and each reads back as itself |
| Types.ParseStrings | client/src/store/leetcode/type.ts:41-42 | a string array is accepted exactly when every element is a string, and keeps the elements in order |
| Types.StringsRoundTrip | client/src/store/leetcode/type.ts:41-42 | a string array round-trips through JSON |
| Types.TagsRoundTrip | client/src/store/leetcode/type.ts:18-23 | a tag list round-trips through JSON |
| Types.ProblemBasicRoundTrip | client/src/store/leetcode/type.ts:12-25 | a basic problem round-trips through JSON |
| Types.AdvancedExtendsBasic | client/src/store/leetcode/type.ts:27-29 | an advanced problem is accepted exactly when the value is a valid basic problem with a string description, and extends what the basic schema reads |
| Types.ProblemAdvancedRoundTrip | client/src/store/leetcode/type.ts:27-29 | an advanced problem round-trips through JSON |
| Types.ProblemFiltersRoundTrip | client/src/store/leetcode/type.ts:38-45 | filters round-trip through JSON |
| Types.ProblemFiltersShape | client/src/store/leetcode/type.ts:38-45 | accepted filters have numeric page and limit, string arrays, a string sort and a boolean flag |
| Types.SolutionRoundTrip | client/src/store/leetcode/type.ts:47-52 | a solution round-trips through JSON |
| Types.ParseSolutionRecord | client/src/store/leetcode/type.ts:64-64 | a solution record is accepted exactly when every value is a solution, and keeps its keys |
| Types.ParseChat | client/src/store/leetcode/type.ts:57-63 | a chat array is accepted exactly when every element is a chat entry, with one entry per element, in order |
| Types.ChatRoundTrip | client/src/store/leetcode/type.ts:57-63 | a chat round-trips through JSON, entry by entry and in order |
| Types.QuestionDetailSolutionKeys | client/src/store/leetcode/type.ts:54-65 | a question detail's solution map has exactly the record's keys, each with the solution its value describes |
| Types.SolutionRequestRoundTrip | client/src/store/leetcode/type.ts:67-72 | a request round-trips, and one whose problem id is a string is refused |
| Solve.ClientBodyAccepted | server/src/solution/solve.py:9-22 | the snake_case body the client posts is accepted as the request it was built from; without prog_lang it is refused |
| Solve.ParseSolutionConfig | server/src/solution/solve.py:9-22 | an accepted body is an object with a problem_id and the prog_lang and model strings it reports, and a context it reports is the body's string |
| Api.SolutionBody | client/src/store/leetcode/api.ts:56-61 | the body carries exactly the four snake_case keys and none of the request's camelCase names |
| Solve.SolutionResponseFields | server/src/solution/solve.py:25-36 | a response round-trips, each of its three string fields is required, and its snake_case keys fail the client's camelCase solution schema |
| Solve.PromptVariables | server/src/solution/solve.py:93-99 | the prompt gets exactly five variables, and an absent context becomes "" |
| Solve.DropPrefix | server/src/solution/solve.py:107-110 | a present prefix is cut off exactly, an absent one leaves the string |
| Solve.DropSuffix | server/src/solution/solve.py:111-112 | a present suffix is cut off exactly, an absent one leaves the string |
| Solve.CleanReply | server/src/solution/solve.py:104-115 | the step-by-step reassignments compute the cleanup |
| Solve.Cleanup | server/src/solution/solve.py:104-115 | the cleanup only removes characters |
| Solve.CleanupTrimmed | server/src/solution/solve.py:106-115 | the cleaned reply only loses characters and is already stripped |
| Solve.GenerateOutcome | server/src/solution/solve.py:53-122 | a solution is returned only for a found problem and a text reply whose cleaned form decodes to that very response |
| Solve.UnfencedReply | server/src/solution/solve.py:106-115 | a reply without fences is only stripped |
| Solve.FencedReply | server/src/solution/solve.py:106-115 | a JSON object in a "```json" or bare "```" fence, with any whitespace around and inside, comes out as the object |
| Solve.FenceDroppedOnce | server/src/solution/solve.py:107-112 | each fence is removed at most once: a doubled opening leaves "json" in front, a doubled closing leaves one fence behind |
| Solve.ErrorMapping | server/src/solution/solve.py:53-122 | a missing problem is reported with its id; a reply that is not text gives "Error generating solution"; a text reply succeeds exactly when its cleaned form decodes to a valid response, else "Failed to parse" |
| Solve.FencedReplySucceeds | server/src/solution/solve.py:101-116 | a fenced reply whose object decodes to a response yields that response |
| Service.ParseSortOrder | server/src/problems/service.py:6-9 | a parsed sort order reads back as the given string |
| Service.SortOrderValues | server/src/problems/service.py:6-9 | exactly "asc", "desc" and "none" are sort orders |
| Service.Defaults | server/src/problems/service.py:13-18 | with nothing given: no tags or difficulties, sort "none", limit 40, page 1, not a first query |
| Service.Validation | server/src/problems/service.py:12-18 | a filter is built exactly when the sort is valid and limit and page are at least 1, then holds the given values; a refusal names each failing bound |
| Service.MakeFilter | server/src/problems/service.py:12-18 | a filter that is built has limit and page at least 1, and a refusal names at least one field |
| Service.ForwardDropsOnlyFirstQuery | server/src/problems/service.py:33-40 | every field but first_query reaches the problem query, and first_query never does |
| Service.GetProblemByPublicId | server/src/problems/service.py:55-58 | the problem when one has the id, otherwise the not-found error carrying the id |
| Service.NotFoundUnreachable | server/src/problems/service.py:55-58 | as written, a missing id surfaces as the lookup's AttributeError and the not-found error is never raised |
| Mixins.Filter | server/src/db/mixins.py:91-92 | exactly the rows strictly after the cursor in the order |
| Mixins.Sort | server/src/db/mixins.py:93-93 | the rows, permuted into the requested order |
| Mixins.PageContents | server/src/db/mixins.py:77-103 | at most limit rows of the table, each after the cursor, in order; has_next exactly when the page is full; total counts the whole table |
| Mixins.Paginate | server/src/db/mixins.py:77-103 | at most limit rows, in the requested order; has_next exactly when the page is full; the total counts the whole table |
| Mixins.NoRowSkipped | server/src/db/mixins.py:91-93 | a row after the cursor left off the page comes no earlier than the page's last row, which is then full |
| Mixins.FirstPageStartsAtBeginning | server/src/db/mixins.py:77-78 | without a cursor, or with datetime.min, the first page starts at the beginning of the order |
| Mixins.PublicId | server/src/db/mixins.py:133-135 | the id's length is the prefix's, one underscore and the UUID's |
| Mixins.PublicIdFormat | server/src/db/mixins.py:133-135 | a public id is the class name's first three letters lower-cased, "_", then the UUID; a problem's starts "pro_" |
| Mixins.FindByPublicId | server/src/db/mixins.py:151-153 | the query finds a row with the id, and none exactly when no row has it |
| Mixins.MissingIdRaises | server/src/db/mixins.py:151-155 | as written, every lookup of a missing id raises AttributeError |
| Mixins.GetByPublicId | server/src/db/mixins.py:139-155 | the intended lookup: None exactly when no row has the id, otherwise a row with it; it agrees with the written lookup wherever that returns |
| Mixins.Without | server/src/db/mixins.py:171-173 | the table without the rows of that id, every other row kept |
| Mixins.WithoutKeepsUnique | server/src/db/mixins.py:116-121 | deleting keeps public ids unique |
| Mixins.Table.GetPagination | server/src/db/mixins.py:58-103 | the branch assignments and the query give the page described above |
| Mixins.Table.Delete | server/src/db/mixins.py:167-175 | the intended delete (the lookup called with the public id alone): True exactly when a row had the id, and then that row is gone; public ids stay unique |
| Mixins.CallGetByPublicId | server/src/db/context.py:16-40 | through with_session a call binds only with the public id alone; a call that also passes a session raises TypeError |
| Mixins.DeleteAlwaysRaises | server/src/db/mixins.py:167-175 | as written every delete raises TypeError, whether or not a row has the id; a lookup called with the id alone succeeds exactly when a row has it |
| Mixins.Excluded | server/src/db/mixins.py:189-190 | "id" is always excluded |
| Mixins.DictOfContents | server/src/db/mixins.py:192-199 | the dictionary holds exactly the columns not excluded, each with its own value |
| Mixins.ToDict | server/src/db/mixins.py:183-199 | the loop builds that dictionary; the caller's set gains "id" only when it was non-empty |
| Mixins.Table.constructor | server/src/db/mixins.py:116-121 | a table starts with the given rows, whose public ids are unique |
| Types.ParseDifficulty | client/src/store/leetcode/type.ts:3-3 | an accepted difficulty names the string it was read from |
| Types.ParseModel | client/src/store/leetcode/type.ts:5-10 | an accepted model names the string it was read from |
| Types.ParseTags | client/src/store/leetcode/type.ts:18-23 | a tag array is accepted exactly when every element is a tag, with one tag per element, in order |
| Seqs.Remove | client/src/store/chat-input/hook.ts:63-65 | the filter keeps no copy of the value, keeps every other element, and adds nothing |
| Text.Trim | server/src/solution/solve.py:106-106 | the stripped text is a contiguous slice of the input starting after the leading whitespace, and begins and ends with a non-whitespace character when non-empty |
| Text.TrimIdempotent | server/src/solution/solve.py:106-115 | stripping twice, as the cleanup does, is the same as stripping once |
| Text.TrimEmptyIffBlank | client/src/components/llm/ChatInput.tsx:66-66 | text.trim() is empty exactly when the text is all whitespace |
| Text.TrimPadded | server/src/solution/solve.py:106-115 | whitespace on either side of a trimmed text is removed exactly |

## Left out

- The autoplay timer (`setInterval`), its speed and the progress bar: only one firing of the interval is modelled, as `Visualizer.Playback.TimerTick`.
- The visualizer's fixed step arrays: the session takes any non-empty step sequences.
- The float `averageAcceptanceRate` in the site info: floating point is not modelled, and the field is carried as an opaque integer.
- HTTP and axios. The percent-encoding that `URLSearchParams` applies (section 5.2 of the WHATWG URL Standard) is not modelled: parameters are pairs of unencoded strings.
- The key mismatch between the client and the router: the client sends `acceptanceSort`/`firstQuery` and the router binds `acceptance_sort`/`first_query`. The router (server/src/problems/handler.py beyond line 38) is not part of this model.
- The LLM call and pydantic's JSON decoding: the model reply is a parameter, and decoding is a `decode` function parameter on a `Json` value.
- The database session and the ORM: a table is a sequence of rows, and a query is a function on it. The session decorator is modelled only as far as it binds arguments (`Mixins.CallGetByPublicId`).
- The cache-hit branch of `get_by_public_id` (server/src/db/mixins.py:147-149) is not modelled. It returns `cls.get_by_internal_id(session, internal_id)` without `await`, so the caller gets a coroutine object, not a row. Awaiting that coroutine would also pass two sessions.
- Mixins.Table.Delete models delete as intended: the lookup is called with the public id alone and returns None for a missing row. As written, every call raises TypeError (see Findings). `Mixins.DeleteAsWritten` and `Mixins.DeleteAlwaysRaises` model that behaviour.
- SQL leaves the order of equal sort keys unspecified. `Mixins.Sort` uses a stable insertion sort, which is one admissible order.
- `crypto.randomUUID`, `uuid4`, `Date.now` and `datetime.now` are parameters.
- Whitespace and case: only ASCII whitespace and ASCII letters are modelled, and lengths are in characters, not UTF-16 code units.
- JSON numbers are integers.
- `problem_id` is typed `str` on one side and `int` on the other. Ids are modelled as integers, and a string id is refused (`Types.SolutionRequestRoundTrip`).
- The coach, the analyzer, the landing page and other presentational components; the left-border class rewrite in ProblemCard (lines 74-77); the typing delay in `handleSendQuestion`.
- ProblemListSlice.CeilDiv requires limit > 0: the source divides by the page size, and every caller passes a positive one.
- ProblemListView.ParseSortValue requires a "-" in the value: every option of the select contains one.
- Mixins.Paginate requires limit >= 0: a negative SQL LIMIT is not modelled.
- ProblemCard.OverflowBadge requires more than two tags: the badge is only rendered then.
- Mixins.ToDict: an empty `exclude` set is falsy and is replaced by a fresh set, so "id" is added to the caller's set only when that set was non-empty. The model follows the code here, not the promise that "id" is always added to the caller's set.

## Findings

| source | as written | input that shows it | evidently intended | confidence | as-written member | corrected member |
|---|---|---|---|---|---|---|
| client/src/components/leetcode/table/ProblemList.tsx:281-286 | Next is disabled only when `currentPage === pageCount`, and its update is `Math.min(pageCount, prev + 1)` | a search with no results: pageCount 0, currentPage 1; Next is enabled and moves to page 0, which the server refuses (page >= 1) | the page stays within [1, max(1, pageCount)] | not executed | ProblemListView.NextPageAsWritten, ProblemListView.NextPageLeavesRange | ProblemListView.NextPage, ProblemListView.PageButtons |
| server/src/db/mixins.py:171-171 | `delete` calls `cls.get_by_public_id(session, public_id)`, and the with_session decorator (server/src/db/context.py:18-26) adds its own session in front | any call of delete: the lookup receives cls, two sessions and the id for three parameters, so it raises TypeError, which the decorator re-raises after rollback (server/src/db/context.py:36-40) | the lookup called with the public id alone; True exactly when a row had the id, which is then deleted | not executed | Mixins.DeleteAsWritten, Mixins.DeleteAlwaysRaises | Mixins.Table.Delete |
| server/src/db/mixins.py:151-155 | `get_by_public_id` reads `result.id` before checking for a missing row | any public id that no row carries: `None.id` raises AttributeError, so the `is None` branches at server/src/problems/service.py:56-58 and server/src/solution/solve.py:55-56 never run | None for a missing id, so callers raise their not-found error | not executed | Mixins.MissingIdRaises, Service.NotFoundUnreachable | Mixins.GetByPublicId, Service.GetProblemByPublicId |
