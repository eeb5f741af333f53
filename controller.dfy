/** The TraceTutor page component: its state hooks as fields of one object,
    and each event handler as a method that updates those fields in the order
    the handler does. Every method is proved to end in the state that the
    matching transition of `ViewState` describes. */
module Controller {
  import opened Text
  import opened Catalog
  import opened ViewState

  class TraceTutor {
    /** The static catalog the page is built with. */
    const projects: seq<Project>
    const learningPaths: seq<LearningPath>

    var activeTab: Tab
    var chatMessages: seq<Message>
    var userInput: string
    var isLoading: bool
    var currentProject: Option<Project>
    var searchQuery: string
    var selectedFilter: string
    var selectedLearningPath: Option<LearningPath>
    var isDarkMode: bool

    /** The current values of all state hooks. */
    function Snapshot(): State
      reads this
    {
      State(activeTab, chatMessages, userInput, isLoading, currentProject,
            searchQuery, selectedFilter, selectedLearningPath, isDarkMode)
    }

    /** The hooks' initial values. */
    constructor (projects: seq<Project>, learningPaths: seq<LearningPath>)
      ensures this.projects == projects && this.learningPaths == learningPaths
      ensures Snapshot() == Initial()
      ensures chatMessages == [Message(Assistant, Greeting)] && activeTab == Overview && selectedFilter == "all"
    {
      this.projects := projects;
      this.learningPaths := learningPaths;
      activeTab := Overview;
      chatMessages := [Message(Assistant, Greeting)];
      userInput := "";
      isLoading := false;
      currentProject := None;
      searchQuery := "";
      selectedFilter := "all";
      selectedLearningPath := None;
      isDarkMode := false;
    }

    /** The projects shown under the Projects tab: exactly the catalog's
        projects that the current query and difficulty filter accept. */
    function FilteredProjects(): (r: seq<Project>)
      reads this
      ensures forall p :: p in r <==> p in projects && Keep(p, searchQuery, selectedFilter)
      ensures searchQuery == "" && selectedFilter == "all" ==> r == projects
    {
      FilterNothingShowsAll(projects);
      Filter(projects, searchQuery, selectedFilter)
    }

    /** handleSendMessage, with the collaborator's answer given as `outcome`.
        Blank input is ignored; otherwise the question goes into the
        transcript, the input is cleared, loading is shown while the answer is
        awaited, and the answer (or the apology) is appended. */
    method HandleSendMessage(outcome: Completion)
      modifies this`chatMessages, this`userInput, this`isLoading
      ensures Snapshot() == SendMessage(old(Snapshot()), outcome)
      ensures IsBlank(old(userInput)) ==>
        chatMessages == old(chatMessages) && userInput == old(userInput) && isLoading == old(isLoading)
      ensures !IsBlank(old(userInput)) ==>
        chatMessages == old(chatMessages) + [Message(User, old(userInput)), Message(Assistant, Reply(outcome))] &&
        userInput == "" && !isLoading
    {
      TrimIsEmptyIffBlank(userInput);
      if Trim(userInput) == "" {
        return;
      }
      ghost var expected := SendMessage(Snapshot(), outcome);
      var question := userInput;
      chatMessages := chatMessages + [Message(User, question)];
      userInput := "";
      isLoading := true;
      match outcome {
        case Completed(response) =>
          chatMessages := chatMessages + [Message(Assistant, response)];
        case Failed =>
          chatMessages := chatMessages + [Message(Assistant, Apology)];
      }
      isLoading := false;
      assert chatMessages == old(chatMessages) + [Message(User, question), Message(Assistant, Reply(outcome))];
      assert Snapshot() == expected;
    }

    /** startProject: select the project and show the project tab. */
    method StartProject(p: Project)
      modifies this`currentProject, this`activeTab
      ensures Snapshot() == ViewState.StartProject(old(Snapshot()), p)
      ensures currentProject == Some(p) && activeTab == CurrentProject
    {
      currentProject := Some(p);
      activeTab := CurrentProject;
    }

    /** handleSearchSubmit, with the collaborator's answer given as `outcome`.
        A blank query is ignored; a failure is only logged, so it changes
        nothing; a success replaces the transcript and shows the tutor tab. */
    method HandleSearchSubmit(outcome: Completion)
      modifies this`chatMessages, this`activeTab
      ensures Snapshot() == SubmitSearch(old(Snapshot()), outcome)
      ensures IsBlank(old(searchQuery)) || outcome.Failed? ==>
        chatMessages == old(chatMessages) && activeTab == old(activeTab)
      ensures !IsBlank(old(searchQuery)) && outcome.Completed? ==>
        chatMessages == [Message(Assistant, SearchEcho(searchQuery)), Message(Assistant, outcome.text)] &&
        activeTab == Tutor
    {
      TrimIsEmptyIffBlank(searchQuery);
      if Trim(searchQuery) == "" {
        return;
      }
      match outcome {
        case Completed(response) =>
          chatMessages := [Message(Assistant, SearchEcho(searchQuery)), Message(Assistant, response)];
          activeTab := Tutor;
        case Failed =>
      }
    }

    /** startLearningPath: select the path and show the learning-path tab. */
    method StartLearningPath(path: LearningPath)
      modifies this`selectedLearningPath, this`activeTab
      ensures Snapshot() == ViewState.StartLearningPath(old(Snapshot()), path)
      ensures selectedLearningPath == Some(path) && activeTab == MyLearningPath
    {
      selectedLearningPath := Some(path);
      activeTab := MyLearningPath;
    }

    /** setActiveTab, as called by every tab button and navigation link. */
    method SetActiveTab(tab: Tab)
      modifies this`activeTab
      ensures Snapshot() == SelectTab(old(Snapshot()), tab)
      ensures activeTab == tab
    {
      activeTab := tab;
    }

    /** showLearningPaths, the "Watch Demo" button. */
    method ShowLearningPaths()
      modifies this`activeTab
      ensures Snapshot() == SelectTab(old(Snapshot()), LearningPaths)
      ensures activeTab == LearningPaths
    {
      SetActiveTab(LearningPaths);
    }

    /** toggleDarkMode. */
    method ToggleDarkMode()
      modifies this`isDarkMode
      ensures Snapshot() == ViewState.ToggleDarkMode(old(Snapshot()))
      ensures isDarkMode == !old(isDarkMode)
    {
      isDarkMode := !isDarkMode;
    }

    /** The chat input's change handler. */
    method SetUserInput(text: string)
      modifies this`userInput
      ensures Snapshot() == EditUserInput(old(Snapshot()), text)
      ensures userInput == text
    {
      userInput := text;
    }

    /** The search box's change handler. */
    method SetSearchQuery(text: string)
      modifies this`searchQuery
      ensures Snapshot() == EditSearchQuery(old(Snapshot()), text)
      ensures searchQuery == text
    {
      searchQuery := text;
    }

    /** The difficulty drop-down's change handler. */
    method SetSelectedFilter(filter: string)
      modifies this`selectedFilter
      ensures Snapshot() == ChooseFilter(old(Snapshot()), filter)
      ensures selectedFilter == filter
    {
      selectedFilter := filter;
    }

    /** Handles one event by calling the handler the page wires to it. */
    method Dispatch(e: Event)
      modifies this
      ensures Snapshot() == Step(old(Snapshot()), e)
    {
      match e {
        case SendClicked(o) => HandleSendMessage(o);
        case SearchClicked(o) => HandleSearchSubmit(o);
        case ProjectStarted(p) => StartProject(p);
        case PathStarted(path) => StartLearningPath(path);
        case TabClicked(t) => SetActiveTab(t);
        case DarkModeToggled => ToggleDarkMode();
        case InputTyped(text) => SetUserInput(text);
        case QueryTyped(text) => SetSearchQuery(text);
        case FilterChosen(f) => SetSelectedFilter(f);
      }
    }
  }
}
