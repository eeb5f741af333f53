# TraceTutor view logic in Dafny

TraceTutor is a single-page demo that teaches PCB design. Almost all of its one
React component is rendering. This project models the part that is logic:

- **The catalog filter.** The search box and the difficulty drop-down select which
  projects the Projects tab lists.
- **Recommended projects.** A learning path's project ids are resolved against the
  catalog, and each resolved project gets a Start or Locked button.
- **The view-state controller.** This covers the component's state hooks (active
  tab, selected project, selected learning path, chat transcript, chat input,
  loading flag, search text, difficulty filter, dark mode) and the event handlers
  that change them.

The Dafny modules follow that split:

- `Text` (`text.dfy`) models the three JavaScript string operations the logic uses.
  `trim` strips the ECMAScript whitespace and line-terminator code points.
  `toLowerCase` is restricted to ASCII letters. `includes` is substring search.
- `Sequences` (`sequences.dfy`) models `Array.prototype.filter` with an arbitrary
  callback. Its facts are proved once: exact kept positions, concatenation,
  filtering twice, and agreeing callbacks.
- `Catalog` (`catalog.dfy`) holds the `Project` and `LearningPath` records, the
  filter callback and the filtered list. It also holds `projects.find` by id and
  the recommended-project list, each with its properties.
- `ViewState` (`view_state.dfy`) treats the component's state as a value. Each
  handler is a transition function, user events are a datatype, and a run is a
  fold over events. The lemmas state what each handler guarantees and which
  invariants hold over any run.
- `Controller` (`controller.dfy`) has the class `TraceTutor`. Its fields are the
  state hooks, and each handler is a method that assigns them in the handler's
  order. The `modifies` clause names only the fields the handler sets. Each method
  is proved to end in the state given by the matching `ViewState` transition.

The text-completion collaborator is not modelled. A caller supplies its answer as
a `Completion`: either `Completed(text)` or `Failed`. This makes each handler one
deterministic step.

The model follows the code in three places where a reader might expect
something else:

- The difficulty check lower-cases only the project's difficulty. The selected
  filter value is compared as it is. The drop-down only offers lower-case values,
  so the check behaves case-insensitively in practice. A filter value containing
  an upper-case letter would match nothing
  (`Catalog.FilterWithUpperCaseValueShowsNothing`).
- A successful search replaces the chat transcript. So the transcript is
  append-only only across runs without a search
  (`ViewState.TranscriptOnlyGrowsWithoutSearch`).
- A recommendation's Start/Locked caption depends on the index of its id in the
  path's id list, not on its place among the resolved entries. If the first id
  does not resolve, no entry is captioned Start (`Catalog.RecommendedStartsOnlyFirst`).

## Model

| member | source | states |
|---|---|---|
| Text.TrimStart | App.jsx:172 | the result is the longest suffix of the input that does not start with whitespace; every dropped character is whitespace |
| Text.TrimEnd | App.jsx:172 | the result is the longest prefix of the input that does not end with whitespace; every dropped character is whitespace |
| Text.Trim | App.jsx:219 | the result is the slice of the input with exactly its leading and trailing whitespace removed: only whitespace lies outside the slice, and the slice neither starts nor ends with whitespace |
| Text.TrimIsEmptyIffBlank | App.jsx:172 | `!s.trim()` holds exactly when every character of `s` is whitespace |
| Text.Lower | App.jsx:208-211 | lower-casing keeps the length and maps each character through ASCII lower-casing |
| Text.LowerIsIdempotent | App.jsx:208-211 | lower-casing an already lower-cased string changes nothing |
| Text.Includes | App.jsx:208 | `hay.includes(needle)` by recursion on `hay`: `needle` is a prefix of `hay` or of one of its suffixes; `Text.IncludesIffOccurs` proves it equal to occurrence at an index |
| Text.IncludesIffOccurs | App.jsx:208-211 | `hay.includes(needle)` holds exactly when `needle` occurs in `hay` at some index |
| Sequences.FilterBy | App.jsx:206 | `xs.filter(keep)`: the result is never longer than `xs`; its exact content is proved in `Sequences.FilterByMembership` and `Sequences.FilterByKeepsExactlyThePassingPositions` |
| Sequences.FilterByMembership | App.jsx:206 | an element is in `xs.filter(keep)` exactly when it is in `xs` and `keep` accepts it |
| Sequences.FilterByKeepsExactlyThePassingPositions | App.jsx:206 | `filter` removes exactly the rejected positions and keeps the order of the rest |
| Catalog.SomeIncludes | App.jsx:210-211 | `items.some(x => x.toLowerCase().includes(needle))`: some item, lower-cased, contains the needle |
| Catalog.MatchesSearch | App.jsx:207-211 | the search half of the callback: the raw query is `''`, or the lower-cased query occurs in the lower-cased title, description, a skill or a tag; its effect on the list is `Catalog.FilterIgnoresQueryCase` and `Catalog.FilterIsSearchThenDifficulty` |
| Catalog.MatchesFilter | App.jsx:213 | the difficulty half of the callback: the filter is `'all'`, or the lower-cased difficulty equals the filter value as given; its effect is `Catalog.FilterWithUpperCaseValueShowsNothing` |
| Catalog.Filter | App.jsx:206-216 | a project is listed exactly when it is in the catalog and both the search check and the difficulty check accept it |
| Catalog.FilterKeepsExactlyThePassingPositions | App.jsx:206-216 | the listed projects are an order-preserving subsequence of the catalog, and they occupy exactly the catalog positions whose project passes both checks |
| Catalog.FilterNothingShowsAll | App.jsx:207-215 | with the query `''` and the filter `'all'` the whole catalog is listed, in order |
| Catalog.FilterDistributesOverConcat | App.jsx:206-216 | filtering a concatenated catalog lists each part's matches, in order |
| Catalog.FilterIsIdempotent | App.jsx:206-216 | filtering the filtered list again changes nothing |
| Catalog.FilterIsSearchThenDifficulty | App.jsx:207-215 | the two checks combine as an intersection: the listed projects are the text-search result filtered by difficulty alone |
| Catalog.FilterIgnoresQueryCase | App.jsx:208-211 | the search is case-insensitive in the query: the lower-cased query lists the same projects |
| Catalog.FilterWithUpperCaseValueShowsNothing | App.jsx:213 | the difficulty is compared lower-cased against the filter value as given, so a filter value with an upper-case letter lists no project |
| Catalog.FindById | App.jsx:866 | `find` returns nothing exactly when no project has the id, and otherwise returns the first project with that id |
| Catalog.FindByIdFindsFirst | App.jsx:866 | a found project has the requested id and is the first catalog entry that has it |
| Catalog.Recommended | App.jsx:865-888 | the list has no more entries than the path has ids; what each entry is and which ids get one are the rows below |
| Catalog.RecommendedEntriesResolveTheirIds | App.jsx:865-884 | each entry is the project that `find` resolves its id to, and it is captioned Start exactly when that id is at index 0 |
| Catalog.RecommendedFollowsIdOrder | App.jsx:865-888 | entries appear in the order of the path's ids |
| Catalog.RecommendedKeepsEveryResolvingId | App.jsx:866-867 | every id that resolves to a project has an entry; ids that resolve to nothing are dropped |
| Catalog.RecommendedHasEntryExactlyForResolvingIds | App.jsx:866-867 | an id of the path gets an entry exactly when `find` resolves it to a project |
| Catalog.RecommendedStartsOnlyFirst | App.jsx:884 | only the first entry can be captioned Start, and it is exactly when the path's first id resolves |
| ViewState.Initial | App.jsx:24-34 | the initial hook values; `ViewState.InitialIsSettled` proves they are not loading and hold the greeting |
| ViewState.SendMessage | App.jsx:171-199 | handleSendMessage as one transition, with the collaborator's outcome as a parameter; its properties are `ViewState.SendMessageIgnoresExactlyBlankInput`, `ViewState.SendMessageAppendsQuestionAndReply` and `ViewState.TranscriptOnlyGrowsWithoutSearch` |
| ViewState.SubmitSearch | App.jsx:218-242 | handleSearchSubmit as one transition; its properties are `ViewState.SubmitSearchIgnoresBlankQueryAndFailure` and `ViewState.SubmitSearchReplacesTranscript` |
| ViewState.StartProject | App.jsx:201-204 | startProject as a transition; its properties are `ViewState.StartProjectSelectsAndShows` and `ViewState.ProjectPersistsUntilReplaced` |
| ViewState.StartLearningPath | App.jsx:244-247 | startLearningPath as a transition; its properties are `ViewState.StartLearningPathSelectsAndShows` and `ViewState.LearningPathPersistsUntilReplaced` |
| ViewState.SelectTab | App.jsx:386-392 | `setActiveTab` from a tab button as a transition; its property is `ViewState.SelectTabChangesOnlyTab` |
| ViewState.ToggleDarkMode | App.jsx:253-255 | toggleDarkMode as a transition; its properties are `ViewState.ToggleDarkModeFlipsOnlyTheFlag`, `ViewState.ToggleDarkModeTwiceRestores` and `ViewState.DarkModeFollowsToggleParity` |
| ViewState.EditUserInput | App.jsx:605 | the chat input's `setUserInput` as a transition; `ViewState.ReachableStatesAreSettled` and the persistence lemmas cover it as one of the events |
| ViewState.EditSearchQuery | App.jsx:406 | the search box's `setSearchQuery` as a transition; covered as an event by the run lemmas |
| ViewState.ChooseFilter | App.jsx:419 | the drop-down's `setSelectedFilter` as a transition; covered as an event by the run lemmas |
| ViewState.SendMessageIgnoresExactlyBlankInput | App.jsx:172 | sending leaves the state, and the transcript, unchanged exactly when the input is whitespace only |
| ViewState.SendMessageAppendsQuestionAndReply | App.jsx:174-198 | sending non-blank input appends exactly two messages and keeps earlier messages unchanged; the other fields stay the same |
| ViewState.SubmitSearchIgnoresBlankQueryAndFailure | App.jsx:218-242 | a whitespace-only query, or a failed completion, leaves the whole state unchanged |
| ViewState.SubmitSearchReplacesTranscript | App.jsx:221-238 | a successful search on a non-blank query replaces the transcript and sets the tab to `'tutor'`; nothing else changes |
| ViewState.TranscriptOnlyGrowsWithoutSearch | App.jsx:171-199 | over any run without a search submission, the old transcript stays a prefix of the new one |
| ViewState.StartProjectSelectsAndShows | App.jsx:201-204 | starting a project selects it and shows the project tab; the selected learning path and all other fields stay the same |
| ViewState.StartLearningPathSelectsAndShows | App.jsx:244-247 | starting a learning path selects it and shows the learning-path tab; the selected project and all other fields stay the same |
| ViewState.SelectTabChangesOnlyTab | App.jsx:386-392 | a tab click sets the active tab and changes nothing else |
| ViewState.ProjectPersistsUntilReplaced | App.jsx:201-204 | the selected project survives every run that starts no other project, including all tab navigation |
| ViewState.LearningPathPersistsUntilReplaced | App.jsx:244-247 | the selected learning path survives every run that starts no other learning path |
| ViewState.StartedProjectIsShownAgain | App.jsx:391 | after starting a project, then any events that start no other project, clicking the project tab shows that project again |
| ViewState.ToggleDarkModeFlipsOnlyTheFlag | App.jsx:253-255 | toggling flips dark mode and changes nothing else |
| ViewState.ToggleDarkModeTwiceRestores | App.jsx:253-255 | toggling twice gives back the original state |
| ViewState.DarkModeFollowsToggleParity | App.jsx:253-255 | after any run, dark mode equals its old value flipped by the parity of the run's toggles; no other event touches it |
| ViewState.ReachableStatesAreSettled | App.jsx:25-29 | from a state with a non-empty transcript and no loading, every run keeps both facts |
| ViewState.InitialIsSettled | App.jsx:24-34 | the initial state is not loading and its transcript is the greeting |
| Controller.TraceTutor.constructor | App.jsx:24-34 | a new page starts with the initial hook values: the overview tab, the greeting as the only message, and the filter `'all'` |
| Controller.TraceTutor.FilteredProjects | App.jsx:206-216 | the listed projects are exactly the catalog projects accepted by the current query and filter; with query `''` and filter `'all'` the list is the whole catalog |
| Controller.TraceTutor.HandleSendMessage | App.jsx:171-199 | blank input changes nothing; otherwise the transcript gains the untrimmed question and then the answer or apology, the input is cleared and loading ends |
| Controller.TraceTutor.StartProject | App.jsx:201-204 | only `currentProject` and `activeTab` change: the project is selected and the project tab is shown |
| Controller.TraceTutor.HandleSearchSubmit | App.jsx:218-242 | only the transcript and tab may change. A blank query or a failure changes nothing. A success leaves two assistant messages (the echo of the query, then the answer) and shows the tutor tab |
| Controller.TraceTutor.StartLearningPath | App.jsx:244-247 | only `selectedLearningPath` and `activeTab` change: the path is selected and the learning-path tab is shown |
| Controller.TraceTutor.SetActiveTab | App.jsx:386-392 | only `activeTab` changes, to the clicked tab |
| Controller.TraceTutor.ShowLearningPaths | App.jsx:249-251 | only `activeTab` changes, to the learning-paths tab |
| Controller.TraceTutor.ToggleDarkMode | App.jsx:253-255 | only `isDarkMode` changes, to its negation |
| Controller.TraceTutor.SetUserInput | App.jsx:605 | only the chat input changes, to the typed text |
| Controller.TraceTutor.SetSearchQuery | App.jsx:406 | only the search text changes, to the typed text |
| Controller.TraceTutor.SetSelectedFilter | App.jsx:419 | only the difficulty filter changes, to the chosen value |
| Controller.TraceTutor.Dispatch | App.jsx:358-392 | handling any event through its wired handler ends in the state `ViewState.Step` describes, so every run lemma applies to the object |

## Left out

- The mock completion function and its installation on `window` (App.jsx:6-21) are not modelled. It picks a canned answer at random after a random delay. Its outcome is a `Completion` parameter of the two asynchronous handlers instead.
- The prompt templates sent to the collaborator (App.jsx:180-188, 222-232) are left out. They are opaque text passed to a foreign call, so only the echo message, which embeds the query, is modelled.
- The `console.error` logging of a failed search (App.jsx:240) is I/O with no effect on state, so it is left out.
- Interleaving of overlapping asynchronous handlers is not modelled. Each handler is one atomic step. So `isLoading` is true only inside `Controller.TraceTutor.HandleSendMessage`, and every state between events has it false. Input disabling while loading (App.jsx:613, 617) is UI concurrency and is not modelled.
- React batching of state updates is not modelled. The handlers assign the fields in sequence, which gives the same final state for these synchronous updates.
- Unicode case folding is not modelled: `toLowerCase` is modelled for ASCII letters only.
- All rendering is left out. This covers tab buttons, cards, class names, the "Found N projects" line, the pricing page, the milestone list and the whole of ProjectCard.jsx. ProjectCard.jsx only calls `startProject`, which is modelled.
- The static contents of the project and learning-path catalogs (App.jsx:36-169) are not modelled. The catalog is a constructor parameter.
- The stray quizzes markup after the component's export (App.jsx:933-951) is outside the component and is left out.
