/** The view state of the TraceTutor page as a value, and each event handler
    as a transition from one state to the next. The completion collaborator
    (the text generator the tutor and the search ask) is not called here: the
    caller supplies its outcome as a `Completion`. */
module ViewState {
  import opened Text
  import opened Catalog

  /** The eight views. Their ids in the page are 'overview', 'learning-paths',
      'projects', 'tutor', 'quizzes', 'project' (captioned "Current Project"),
      'learning-path' (captioned "My Learning Path") and 'pricing'. */
  datatype Tab = Overview | LearningPaths | Projects | Tutor | Quizzes | CurrentProject | MyLearningPath | Pricing

  datatype Role = User | Assistant

  /** One entry of the chat transcript. */
  datatype Message = Message(role: Role, content: string)

  /** What the completion collaborator answered: a text, or a rejection. */
  datatype Completion = Completed(text: string) | Failed

  const Greeting: string := "Hello! I'm your PCB design tutor. What would you like to learn about today?"

  const Apology: string := "I apologize, but I encountered an error. Please try asking your question again."

  /** The first of the two messages a successful search leaves in the chat. */
  function SearchEcho(query: string): string {
    "Based on your search for \"" + query + "\", here's a personalized learning path:"
  }

  /** Every piece of state the page keeps between events. */
  datatype State = State(
    activeTab: Tab,
    chatMessages: seq<Message>,
    userInput: string,
    isLoading: bool,
    currentProject: Option<Project>,
    searchQuery: string,
    selectedFilter: string,
    selectedLearningPath: Option<LearningPath>,
    isDarkMode: bool)

  /** The state when the page is loaded. */
  function Initial(): State {
    State(Overview, [Message(Assistant, Greeting)], "", false, None, "", "all", None, false)
  }

  /** The assistant's answer to a chat question: the collaborator's text, or
      the apology when it failed. */
  function Reply(outcome: Completion): string {
    match outcome
    case Completed(text) => text
    case Failed => Apology
  }

  /** Sending the chat input. Whitespace-only input is ignored; otherwise the
      question and the reply are appended, the input is cleared and loading
      has ended. */
  function SendMessage(s: State, outcome: Completion): State {
    if Trim(s.userInput) == "" then s
    else
      s.(chatMessages := s.chatMessages + [Message(User, s.userInput), Message(Assistant, Reply(outcome))],
         userInput := "",
         isLoading := false)
  }

  /** Submitting the search box. A whitespace-only query or a failed
      completion changes nothing; otherwise the transcript is replaced by the
      echo of the query and the answer, and the tutor tab is shown. */
  function SubmitSearch(s: State, outcome: Completion): State {
    if Trim(s.searchQuery) == "" then s
    else
      match outcome
      case Failed => s
      case Completed(text) =>
        s.(chatMessages := [Message(Assistant, SearchEcho(s.searchQuery)), Message(Assistant, text)],
           activeTab := Tutor)
  }

  function StartProject(s: State, p: Project): State {
    s.(currentProject := Some(p), activeTab := CurrentProject)
  }

  function StartLearningPath(s: State, path: LearningPath): State {
    s.(selectedLearningPath := Some(path), activeTab := MyLearningPath)
  }

  /** A tab button, the header's Pricing link, "Watch Demo" and the buttons of
      the two "nothing selected" views all just set the active tab. */
  function SelectTab(s: State, tab: Tab): State {
    s.(activeTab := tab)
  }

  function ToggleDarkMode(s: State): State {
    s.(isDarkMode := !s.isDarkMode)
  }

  /** Typing into the chat input, typing into the search box, choosing a
      difficulty in the drop-down. */
  function EditUserInput(s: State, text: string): State { s.(userInput := text) }

  function EditSearchQuery(s: State, text: string): State { s.(searchQuery := text) }

  function ChooseFilter(s: State, filter: string): State { s.(selectedFilter := filter) }

  /** Everything the user can do to the page. */
  datatype Event =
    | SendClicked(outcome: Completion)
    | SearchClicked(outcome: Completion)
    | ProjectStarted(project: Project)
    | PathStarted(path: LearningPath)
    | TabClicked(tab: Tab)
    | DarkModeToggled
    | InputTyped(text: string)
    | QueryTyped(text: string)
    | FilterChosen(filter: string)

  function Step(s: State, e: Event): State {
    match e
    case SendClicked(o) => SendMessage(s, o)
    case SearchClicked(o) => SubmitSearch(s, o)
    case ProjectStarted(p) => StartProject(s, p)
    case PathStarted(path) => StartLearningPath(s, path)
    case TabClicked(t) => SelectTab(s, t)
    case DarkModeToggled => ToggleDarkMode(s)
    case InputTyped(text) => EditUserInput(s, text)
    case QueryTyped(text) => EditSearchQuery(s, text)
    case FilterChosen(f) => ChooseFilter(s, f)
  }

  /** The state after handling `events` in order, one at a time. */
  function Run(s: State, events: seq<Event>): State
    decreases |events|
  {
    if events == [] then s else Run(Step(s, events[0]), events[1..])
  }

  // ---------------------------------------------------------------------------
  // Chat and search
  // ---------------------------------------------------------------------------

  /** Sending leaves the state as it was exactly when the input is blank. */
  lemma SendMessageIgnoresExactlyBlankInput(s: State, outcome: Completion)
    ensures SendMessage(s, outcome) == s <==> IsBlank(s.userInput)
    ensures SendMessage(s, outcome).chatMessages == s.chatMessages <==> IsBlank(s.userInput)
  {
    TrimIsEmptyIffBlank(s.userInput);
    var r := SendMessage(s, outcome);
    if !IsBlank(s.userInput) {
      assert |r.chatMessages| == |s.chatMessages| + 2;
    }
  }

  /** Sending non-blank input appends exactly two messages, the untrimmed
      question and then the reply (or the apology), keeps every earlier message,
      clears the input, ends loading and touches nothing else. */
  lemma SendMessageAppendsQuestionAndReply(s: State, outcome: Completion)
    requires !IsBlank(s.userInput)
    ensures var r := SendMessage(s, outcome);
      |r.chatMessages| == |s.chatMessages| + 2 &&
      r.chatMessages[..|s.chatMessages|] == s.chatMessages &&
      r.chatMessages[|s.chatMessages|] == Message(User, s.userInput) &&
      r.chatMessages[|s.chatMessages| + 1].role == Assistant &&
      (outcome.Completed? ==> r.chatMessages[|s.chatMessages| + 1].content == outcome.text) &&
      (outcome.Failed? ==> r.chatMessages[|s.chatMessages| + 1].content == Apology) &&
      r.userInput == "" && !r.isLoading &&
      r.(chatMessages := s.chatMessages, userInput := s.userInput, isLoading := s.isLoading) == s
  {
    TrimIsEmptyIffBlank(s.userInput);
  }

  /** A blank query or a failed completion leaves the search without effect. */
  lemma SubmitSearchIgnoresBlankQueryAndFailure(s: State, outcome: Completion)
    requires IsBlank(s.searchQuery) || outcome.Failed?
    ensures SubmitSearch(s, outcome) == s
  {
    TrimIsEmptyIffBlank(s.searchQuery);
  }

  /** A successful search on a non-blank query replaces the whole transcript
      by two assistant messages, the echo of the untrimmed query and the
      answer, shows the tutor tab, and touches nothing else. */
  lemma SubmitSearchReplacesTranscript(s: State, text: string)
    requires !IsBlank(s.searchQuery)
    ensures var r := SubmitSearch(s, Completed(text));
      r.chatMessages == [Message(Assistant, SearchEcho(s.searchQuery)), Message(Assistant, text)] &&
      r.activeTab == Tutor &&
      r.(chatMessages := s.chatMessages, activeTab := s.activeTab) == s
  {
    TrimIsEmptyIffBlank(s.searchQuery);
  }

  /** Without a search, the transcript only grows: whatever was in it stays,
      in place, whatever else happens. */
  lemma {:induction false} TranscriptOnlyGrowsWithoutSearch(s: State, events: seq<Event>)
    requires forall k :: 0 <= k < |events| ==> !events[k].SearchClicked?
    ensures s.chatMessages <= Run(s, events).chatMessages
    decreases |events|
  {
    if events != [] {
      var next := Step(s, events[0]);
      assert s.chatMessages <= next.chatMessages;
      TranscriptOnlyGrowsWithoutSearch(next, events[1..]);
    }
  }

  // ---------------------------------------------------------------------------
  // Selections and navigation
  // ---------------------------------------------------------------------------

  /** Starting a project shows it under the project tab and leaves the
      selected learning path, the transcript and the rest alone. */
  lemma StartProjectSelectsAndShows(s: State, p: Project)
    ensures var r := StartProject(s, p);
      r.currentProject == Some(p) && r.activeTab == CurrentProject &&
      r.(currentProject := s.currentProject, activeTab := s.activeTab) == s
  {
  }

  /** Starting a learning path, likewise, for the learning-path tab. */
  lemma StartLearningPathSelectsAndShows(s: State, path: LearningPath)
    ensures var r := StartLearningPath(s, path);
      r.selectedLearningPath == Some(path) && r.activeTab == MyLearningPath &&
      r.(selectedLearningPath := s.selectedLearningPath, activeTab := s.activeTab) == s
  {
  }

  /** A tab click changes the active tab and nothing else. */
  lemma SelectTabChangesOnlyTab(s: State, tab: Tab)
    ensures SelectTab(s, tab).activeTab == tab
    ensures SelectTab(s, tab).(activeTab := s.activeTab) == s
  {
  }

  /** The selected project survives every event except starting another
      project: tab navigation does not clear it. */
  lemma {:induction false} ProjectPersistsUntilReplaced(s: State, events: seq<Event>)
    requires forall k :: 0 <= k < |events| ==> !events[k].ProjectStarted?
    ensures Run(s, events).currentProject == s.currentProject
    decreases |events|
  {
    if events != [] {
      ProjectPersistsUntilReplaced(Step(s, events[0]), events[1..]);
    }
  }

  /** The selected learning path survives every event except starting
      another path. */
  lemma {:induction false} LearningPathPersistsUntilReplaced(s: State, events: seq<Event>)
    requires forall k :: 0 <= k < |events| ==> !events[k].PathStarted?
    ensures Run(s, events).selectedLearningPath == s.selectedLearningPath
    decreases |events|
  {
    if events != [] {
      LearningPathPersistsUntilReplaced(Step(s, events[0]), events[1..]);
    }
  }

  /** After starting project `p`, wandering off through any events that start
      no other project and then clicking the project tab shows `p` again. */
  lemma StartedProjectIsShownAgain(s: State, p: Project, events: seq<Event>)
    requires forall k :: 0 <= k < |events| ==> !events[k].ProjectStarted?
    ensures var r := SelectTab(Run(StartProject(s, p), events), CurrentProject);
      r.activeTab == CurrentProject && r.currentProject == Some(p)
  {
    ProjectPersistsUntilReplaced(StartProject(s, p), events);
  }

  // ---------------------------------------------------------------------------
  // Dark mode
  // ---------------------------------------------------------------------------

  /** Toggling flips the flag and changes nothing else. */
  lemma ToggleDarkModeFlipsOnlyTheFlag(s: State)
    ensures ToggleDarkMode(s).isDarkMode == !s.isDarkMode
    ensures ToggleDarkMode(s).(isDarkMode := s.isDarkMode) == s
  {
  }

  /** Toggling twice restores the state. */
  lemma ToggleDarkModeTwiceRestores(s: State)
    ensures ToggleDarkMode(ToggleDarkMode(s)) == s
  {
  }

  /** Whether `events` holds an odd number of dark-mode toggles. */
  function OddToggles(events: seq<Event>): bool
    decreases |events|
  {
    if events == [] then false else events[0].DarkModeToggled? != OddToggles(events[1..])
  }

  /** The only event that touches the dark-mode flag is the toggle. */
  lemma StepFlipsDarkModeOnlyOnToggle(s: State, e: Event)
    ensures Step(s, e).isDarkMode == (s.isDarkMode != e.DarkModeToggled?)
  {
  }

  /** Dark mode is on after a run exactly when it was on before and the run
      toggled it an even number of times, or it was off and the number is odd:
      no other event touches the flag. */
  lemma {:induction false} DarkModeFollowsToggleParity(s: State, events: seq<Event>)
    ensures Run(s, events).isDarkMode == (s.isDarkMode != OddToggles(events))
    decreases |events|
  {
    if events != [] {
      StepFlipsDarkModeOnlyOnToggle(s, events[0]);
      DarkModeFollowsToggleParity(Step(s, events[0]), events[1..]);
    }
  }

  // ---------------------------------------------------------------------------
  // Reachable states
  // ---------------------------------------------------------------------------

  /** Between events the page is never loading and the transcript is never
      empty. */
  predicate Settled(s: State) {
    !s.isLoading && s.chatMessages != []
  }

  /** Every state reachable from the initial one is settled: handling an
      event as one step never leaves the loading flag on, and the transcript
      starts with the greeting and is only ever appended to or replaced by two
      messages. */
  lemma {:induction false} ReachableStatesAreSettled(s: State, events: seq<Event>)
    requires Settled(s)
    ensures Settled(Run(s, events))
    decreases |events|
  {
    if events != [] {
      var next := Step(s, events[0]);
      assert Settled(next);
      ReachableStatesAreSettled(next, events[1..]);
    }
  }

  lemma InitialIsSettled()
    ensures Settled(Initial()) && Initial().chatMessages[0] == Message(Assistant, Greeting)
  {
  }
}
