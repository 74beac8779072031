/** The assistant's command dispatcher, `perform_praterich_action`
    (ringzauber.py), as a transition of the session record. Branches that
    only call into the active page or into Qt are recorded as events. */
module Dispatch {
  import opened Wrappers
  import opened PyStr
  import opened Vocabulary
  import opened Browser
  import Praterich

  /** A decoded reply as the dispatcher reads it, with `.get`: any of the
      three keys may be missing. */
  datatype Intent = Intent(command: Option<string>, query: Option<string>, message: Option<string>)

  /** What the user picks in the file dialogs a command opens ("" when
      cancelled), and the tab Qt makes current after a tab is removed. */
  datatype UiAnswers = UiAnswers(uploadPath: string, pdfPath: string, closePick: nat)

  /** The Python exceptions a branch lets escape. */
  datatype PyException = ValueError | TypeError

  /** The session after the slot returns, or after it raised `error`. */
  datatype Outcome = Done(session: Session) | Raised(error: PyException, session: Session)

  /** A `str`-or-`None` value handed to a Qt method taking a string: PyQt
      passes `None` as an empty string. */
  function QtString(x: Option<string>): string {
    x.GetOr("")
  }

  /** The branch of the `if`/`elif` chain a command string selects, named
      by the vocabulary member it compares with; `None` when no branch
      matches (including a missing command). */
  function BranchOf(command: Option<string>): (r: Option<Command>)
    ensures r.Some? ==> command.Some?
  {
    if command == Some("NAVIGATE") then Some(NAVIGATE)
    else if command == Some("SEARCH") then Some(SEARCH)
    else if command == Some("NEW_TAB") then Some(NEW_TAB)
    else if command == Some("CLOSE_TAB") then Some(CLOSE_TAB)
    else if command == Some("RELOAD") then Some(RELOAD)
    else if command == Some("GO_BACK") then Some(GO_BACK)
    else if command == Some("GO_FORWARD") then Some(GO_FORWARD)
    else if command == Some("SET_COLOR") then Some(SET_COLOR)
    else if command == Some("EDIT_PAGE") then Some(EDIT_PAGE)
    else if command == Some("EDIT_CODE") then Some(EDIT_CODE)
    else if command == Some("SET_FONT") then Some(SET_FONT)
    else if command == Some("UPLOAD_FILE") then Some(UPLOAD_FILE)
    else if command == Some("TOGGLE_SIDEBAR") then Some(TOGGLE_SIDEBAR)
    else if command == Some("MANAGE_EXTENSIONS") then Some(MANAGE_EXTENSIONS)
    else if command == Some("SYNC_DATA") then Some(SYNC_DATA)
    else if command == Some("TRANSLATE_PAGE") then Some(TRANSLATE_PAGE)
    else if command == Some("CHANGE_SETTINGS") then Some(CHANGE_SETTINGS)
    else if command == Some("DEVELOPER_TOOLS") then Some(DEVELOPER_TOOLS)
    else if command == Some("ZOOM_IN") then Some(ZOOM_IN)
    else if command == Some("ZOOM_OUT") then Some(ZOOM_OUT)
    else if command == Some("FIND_ON_PAGE") then Some(FIND_ON_PAGE)
    else if command == Some("PRINT_TO_PDF") then Some(PRINT_TO_PDF)
    else if command == Some("BOOKMARK_PAGE") then Some(BOOKMARK_PAGE)
    else if command == Some("SWITCH_TAB") then Some(SWITCH_TAB)
    else if command == Some("RESIZE_WINDOW") then Some(RESIZE_WINDOW)
    else if command == Some("NEW_CHAT") then Some(NEW_CHAT)
    else if command == Some("CRAWL_SITE") then Some(CRAWL_SITE)
    else if command == Some("TAB_FORMAT_VERTICAL") then Some(TAB_FORMAT_VERTICAL)
    else if command == Some("TAB_FORMAT_HORIZONTAL_MULTIROWE") then Some(TAB_FORMAT_HORIZONTAL_MULTIROWE)
    else if command == Some("OPEN_NOTES") then Some(OPEN_NOTES)
    else if command == Some("PROMPT_DISPLAY") then Some(PROMPT_DISPLAY)
    else None
  }

  /** The members the dispatcher has no branch for. */
  predicate Unhandled(c: Command) {
    c == NONE || c == PROMPT || c == NEW_WINDOW || c == PROCESS_TEXT
  }

  /** The members whose branch only answers with a fixed sentence. */
  predicate IsPlaceholder(c: Command) {
    c == MANAGE_EXTENSIONS || c == SYNC_DATA || c == CHANGE_SETTINGS
    || c == BOOKMARK_PAGE || c == RESIZE_WINDOW
  }

  /** The fixed sentence a placeholder branch types into the panel. */
  function PlaceholderSentence(c: Command): Sentence
    requires IsPlaceholder(c)
  {
    match c
    case MANAGE_EXTENSIONS => NoExtensions
    case SYNC_DATA => NoSync
    case CHANGE_SETTINGS => NoSettings
    case BOOKMARK_PAGE => NoBookmarks
    case RESIZE_WINDOW => NoResize
  }

  /** `e` appended to the log, nothing else changed. */
  function Say(s: Session, e: Event): (r: Session)
    ensures r == s.(log := r.log) && |r.log| == |s.log| + 1
    ensures r.log[..|s.log|] == s.log && r.log[|s.log|] == e
  {
    s.(log := s.log + [e])
  }

  /** The `NEW_TAB` branch: `int(query) if query else 1` tabs. */
  function NewTabs(s: Session, query: Option<string>): (r: Outcome)
    requires Valid(s)
    ensures Valid(r.session) && r.session == s.(tabs := r.session.tabs, current := r.session.current)
    ensures r.Raised? <==> query.Some? && query != Some("") && ParseInt(query.value).None?
    ensures r.Raised? ==> r.session == s
  {
    if query == None || query == Some("") then Done(AddHomeTabs(s, 1))
    else match ParseInt(query.value)
      case None => Raised(ValueError, s)
      case Some(n) => Done(AddHomeTabs(s, n))
  }

  /** The `SWITCH_TAB` branch: the 1-based tab number in `query`. */
  function SwitchTab(s: Session, query: Option<string>): (r: Outcome)
    requires Valid(s)
    ensures Valid(r.session)
    ensures r.session == s.(current := r.session.current, log := r.session.log)
    ensures r.Raised? <==> query.None?
    ensures |r.session.log| >= |s.log| && r.session.log[..|s.log|] == s.log
  {
    match query
    case None => Raised(TypeError, s)
    case Some(q) =>
      match ParseInt(q)
      case None => Done(Say(s, Said(TabNumberInvalid)))
      case Some(n) =>
        if 0 <= n - 1 < |s.tabs| then Done(s.(current := n - 1))
        else Done(Say(s, Said(TabOutOfRange)))
  }

  /** The branches that open, close or select tabs. */
  predicate IsTabCommand(c: Command) {
    c == NAVIGATE || c == SEARCH || c == NEW_TAB || c == CLOSE_TAB || c == SWITCH_TAB
  }

  /** The branches that change the window's chrome. */
  predicate IsChromeCommand(c: Command) {
    c == TOGGLE_SIDEBAR || c == TAB_FORMAT_VERTICAL || c == TAB_FORMAT_HORIZONTAL_MULTIROWE
  }

  /** The tab branches. */
  function TabBranch(s: Session, c: Command, query: Option<string>, ui: UiAnswers): (r: Outcome)
    requires Valid(s) && IsTabCommand(c)
    ensures Valid(r.session)
    ensures |r.session.log| >= |s.log| && r.session.log[..|s.log|] == s.log
  {
    match c
    case NAVIGATE => Done(AddNewTab(s, Some(QtString(query))))
    case SEARCH => Done(AddNewTab(s, Some(s.searchUrl + Format(query))))
    case NEW_TAB => NewTabs(s, query)
    case CLOSE_TAB => Done(CloseTab(s, s.current, ui.closePick))
    case SWITCH_TAB => SwitchTab(s, query)
  }

  /** The chrome branches: they flip the assistant panel or set the tab layout. */
  function ChromeBranch(s: Session, c: Command): (r: Session)
    requires IsChromeCommand(c)
    ensures r == s.(sidebarVisible := r.sidebarVisible, layout := r.layout, tabsMovable := r.tabsMovable)
  {
    match c
    case TOGGLE_SIDEBAR => ToggleSidebar(s)
    case TAB_FORMAT_VERTICAL => SetTabLayout(s, Vertical)
    case TAB_FORMAT_HORIZONTAL_MULTIROWE => SetTabLayout(s, Horizontal)
  }

  /** What every other branch shows or asks of the page or of Qt: at most
      one event, and none for a member without a branch. */
  function Reaction(c: Command, query: Option<string>, ui: UiAnswers): (e: seq<Event>)
    requires !IsTabCommand(c) && !IsChromeCommand(c)
    ensures |e| <= 1
    ensures Unhandled(c) ==> e == []
  {
    match c
    case RELOAD => [OnActiveTab(Reload)]
    case GO_BACK => [OnActiveTab(GoBack)]
    case GO_FORWARD => [OnActiveTab(GoForward)]
    case SET_COLOR => [BackgroundSet(Format(query))]
    case EDIT_PAGE => [OnActiveTab(RunJavaScript(QtString(query)))]
    case EDIT_CODE => [StatusShown(EditCodeDisabled)]
    case SET_FONT => [FontSet(Format(query))]
    case UPLOAD_FILE =>
      if ui.uploadPath != "" then
        [Said(FileSelected(ui.uploadPath))]
      else []
    case MANAGE_EXTENSIONS => [Said(NoExtensions)]
    case SYNC_DATA => [Said(NoSync)]
    case TRANSLATE_PAGE => [OnActiveTab(Translate(Format(query)))]
    case CHANGE_SETTINGS => [Said(NoSettings)]
    case DEVELOPER_TOOLS => [OnActiveTab(InspectElement)]
    case ZOOM_IN => [OnActiveTab(ZoomIn)]
    case ZOOM_OUT => [OnActiveTab(ZoomOut)]
    case FIND_ON_PAGE => [OnActiveTab(FindText(QtString(query)))]
    case PRINT_TO_PDF => if ui.pdfPath != "" then [OnActiveTab(PrintToPdf(ui.pdfPath))] else []
    case BOOKMARK_PAGE => [Said(NoBookmarks)]
    case RESIZE_WINDOW => [Said(NoResize)]
    case NEW_CHAT => [ChatCleared]
    case CRAWL_SITE => [OnActiveTab(FetchHtml)]
    case OPEN_NOTES => [NotesShown]
    case PROMPT_DISPLAY => [Typed(query)]
    case NONE => []
    case PROMPT => []
    case NEW_WINDOW => []
    case PROCESS_TEXT => []
  }

  /** A placeholder branch only types its fixed sentence. */
  lemma PlaceholderReaction(c: Command, query: Option<string>, ui: UiAnswers)
    requires IsPlaceholder(c)
    ensures Reaction(c, query, ui) == [Said(PlaceholderSentence(c))]
  {
    match c
    case MANAGE_EXTENSIONS =>
    case SYNC_DATA =>
    case CHANGE_SETTINGS =>
    case BOOKMARK_PAGE =>
    case RESIZE_WINDOW =>
  }

  /** The effect of the branch for `c`, after the message has been shown.
      What each branch may change is `DispatchProperties.BranchFrame`. */
  function Branch(s: Session, c: Command, query: Option<string>, ui: UiAnswers): (r: Outcome)
    requires Valid(s)
    ensures Valid(r.session)
    ensures |r.session.log| >= |s.log| && r.session.log[..|s.log|] == s.log
    ensures Unhandled(c) ==> r == Done(s)
  {
    if IsTabCommand(c) then TabBranch(s, c, query, ui)
    else if IsChromeCommand(c) then Done(ChromeBranch(s, c))
    else Done(React(s, c, query, ui))
  }

  /** Every other branch: its event, if any, is added to the log and
      nothing else of the session changes. */
  function React(s: Session, c: Command, query: Option<string>, ui: UiAnswers): (r: Session)
    requires !IsTabCommand(c) && !IsChromeCommand(c)
    ensures r == s.(log := r.log)
    ensures |r.log| >= |s.log| && r.log[..|s.log|] == s.log
    ensures |r.log| <= |s.log| + 1
    ensures Unhandled(c) ==> r == s
  {
    var e := Reaction(c, query, ui);
    assert (s.log + e)[..|s.log|] == s.log;
    assert Unhandled(c) ==> s.log + e == s.log;
    s.(log := s.log + e)
  }

  /** `perform_praterich_action(response)`: the reply's message is typed
      first and the thinking indicator removed, then the branch the command
      selects runs; a command without a branch does nothing more. */
  function PerformAction(s: Session, intent: Intent, ui: UiAnswers): (r: Outcome)
    requires Valid(s)
    ensures Valid(r.session)
    ensures |r.session.log| >= |s.log| + 2
    ensures r.session.log[..|s.log| + 2] == s.log + [Typed(intent.message), ThinkingHidden]
    ensures BranchOf(intent.command).None? ==>
      r == Done(s.(log := s.log + [Typed(intent.message), ThinkingHidden]))
  {
    var shown := s.(log := s.log + [Typed(intent.message), ThinkingHidden]);
    match BranchOf(intent.command)
    case None => Done(shown)
    case Some(c) =>
      var r := Branch(shown, c, intent.query, ui);
      assert r.session.log[..|s.log| + 2] == r.session.log[..|shown.log|][..|s.log| + 2];
      r
  }

  const CrawlLimit := 5000

  /** The opening of the summary request sent for a crawled site. */
  function CrawlIntro(site: Option<string>): string {
    "Oodles has crawled the following HTML from " + Format(site)
      + ". Please summarize what you see, and describe the website's purpose. The HTML is:\n\n"
  }

  /** The summary request `handle_html` builds: the introduction, at most
      the first 5000 characters of the page's HTML, and "...". */
  function CrawlPrompt(site: Option<string>, html: string): (p: string)
    ensures |p| == |CrawlIntro(site)| + (if |html| < CrawlLimit then |html| else CrawlLimit) + 3
    ensures p[..|CrawlIntro(site)|] == CrawlIntro(site)
    ensures p[|CrawlIntro(site)|..|p| - 3] == html[..|p| - 3 - |CrawlIntro(site)|]
    ensures p[|p| - 3..] == "..."
  {
    var kept := if |html| < CrawlLimit then html else html[..CrawlLimit];
    var p := CrawlIntro(site) + kept + "...";
    assert p[|CrawlIntro(site)|..|p| - 3] == kept;
    p
  }

  /** The `handle_html` callback run when the page's HTML arrives for a
      `CRAWL_SITE` command about `site`: the second, plain-text model call
      answers the summary request, and exactly that answer is typed. */
  function OnCrawledHtml(s: Session, site: Option<string>, html: string, model: string -> Praterich.Reply): (r: Session)
    ensures r == s.(log := r.log) && |r.log| == |s.log| + 1 && r.log[..|s.log|] == s.log
    ensures r.log[|s.log|] == Typed(Some(Praterich.ResponseText(model(CrawlPrompt(site, html)))))
  {
    Say(s, Typed(Some(Praterich.ResponseText(model(CrawlPrompt(site, html))))))
  }
}
