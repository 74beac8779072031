/** What the dispatcher promises, command by command, and how its branches
    line up with the advertised vocabulary. */
module DispatchProperties {
  import opened Wrappers
  import opened PyStr
  import opened Vocabulary
  import opened Browser
  import opened Dispatch

  /** The session after the message is shown and the indicator removed. */
  function Shown(s: Session, message: Option<string>): Session {
    s.(log := s.log + [Typed(message), ThinkingHidden])
  }

  /** Every member of the vocabulary selects its own branch, except exactly
      NONE, PROMPT, NEW_WINDOW and PROCESS_TEXT, which select none. */
  lemma HandlerCoverage(c: Command)
    ensures BranchOf(Some(Name(c))) == if Unhandled(c) then None else Some(c)
  {
    if c in {NAVIGATE, SEARCH, NONE, PROMPT, NEW_TAB} {
      Coverage0(c);
    } else if c in {CLOSE_TAB, RELOAD, GO_BACK, GO_FORWARD, SET_COLOR} {
      Coverage1(c);
    } else if c in {EDIT_PAGE, NEW_WINDOW, EDIT_CODE, SET_FONT, UPLOAD_FILE} {
      Coverage2(c);
    } else if c in {TOGGLE_SIDEBAR, PROCESS_TEXT, MANAGE_EXTENSIONS, SYNC_DATA} {
      Coverage3(c);
    } else if c in {TRANSLATE_PAGE, CHANGE_SETTINGS, DEVELOPER_TOOLS, ZOOM_IN} {
      Coverage4(c);
    } else if c in {ZOOM_OUT, FIND_ON_PAGE, PRINT_TO_PDF} {
      Coverage5(c);
    } else if c in {BOOKMARK_PAGE, SWITCH_TAB, RESIZE_WINDOW} {
      Coverage6(c);
    } else if c in {NEW_CHAT, CRAWL_SITE, TAB_FORMAT_VERTICAL} {
      Coverage7(c);
    } else {
      Coverage8(c);
    }
  }

  /** `HandlerCoverage` for NAVIGATE, SEARCH, NONE, PROMPT and NEW_TAB. */
  lemma Coverage0(c: Command)
    requires c in {NAVIGATE, SEARCH, NONE, PROMPT, NEW_TAB}
    ensures BranchOf(Some(Name(c))) == if Unhandled(c) then None else Some(c)
  {
    match c
    case NAVIGATE => SelectsNavigate(Some("NAVIGATE"));
    case SEARCH => SelectsSearch(Some("SEARCH"));
    case NONE => NoBranchForNone();
    case PROMPT => NoBranchForPrompt();
    case NEW_TAB => SelectsNewTab(Some("NEW_TAB"));
  }

  /** `HandlerCoverage` for CLOSE_TAB, RELOAD, GO_BACK, GO_FORWARD and SET_COLOR. */
  lemma Coverage1(c: Command)
    requires c in {CLOSE_TAB, RELOAD, GO_BACK, GO_FORWARD, SET_COLOR}
    ensures BranchOf(Some(Name(c))) == if Unhandled(c) then None else Some(c)
  {
    match c
    case CLOSE_TAB => SelectsCloseTab(Some("CLOSE_TAB"));
    case RELOAD => SelectsReload(Some("RELOAD"));
    case GO_BACK => SelectsGoBack(Some("GO_BACK"));
    case GO_FORWARD => SelectsGoForward(Some("GO_FORWARD"));
    case SET_COLOR => SelectsSetColor(Some("SET_COLOR"));
  }

  /** `HandlerCoverage` for EDIT_PAGE, NEW_WINDOW, EDIT_CODE, SET_FONT and UPLOAD_FILE. */
  lemma Coverage2(c: Command)
    requires c in {EDIT_PAGE, NEW_WINDOW, EDIT_CODE, SET_FONT, UPLOAD_FILE}
    ensures BranchOf(Some(Name(c))) == if Unhandled(c) then None else Some(c)
  {
    match c
    case EDIT_PAGE => SelectsEditPage(Some("EDIT_PAGE"));
    case NEW_WINDOW => NoBranchForNewWindow();
    case EDIT_CODE => SelectsEditCode(Some("EDIT_CODE"));
    case SET_FONT => SelectsSetFont(Some("SET_FONT"));
    case UPLOAD_FILE => SelectsUploadFile(Some("UPLOAD_FILE"));
  }

  /** `HandlerCoverage` for TOGGLE_SIDEBAR, PROCESS_TEXT, MANAGE_EXTENSIONS and SYNC_DATA. */
  lemma Coverage3(c: Command)
    requires c in {TOGGLE_SIDEBAR, PROCESS_TEXT, MANAGE_EXTENSIONS, SYNC_DATA}
    ensures BranchOf(Some(Name(c))) == if Unhandled(c) then None else Some(c)
  {
    match c
    case TOGGLE_SIDEBAR => SelectsToggleSidebar(Some("TOGGLE_SIDEBAR"));
    case PROCESS_TEXT => NoBranchForProcessText();
    case MANAGE_EXTENSIONS => SelectsManageExtensions(Some("MANAGE_EXTENSIONS"));
    case SYNC_DATA => SelectsSyncData(Some("SYNC_DATA"));
  }

  /** `HandlerCoverage` for TRANSLATE_PAGE, CHANGE_SETTINGS, DEVELOPER_TOOLS and ZOOM_IN. */
  lemma Coverage4(c: Command)
    requires c in {TRANSLATE_PAGE, CHANGE_SETTINGS, DEVELOPER_TOOLS, ZOOM_IN}
    ensures BranchOf(Some(Name(c))) == if Unhandled(c) then None else Some(c)
  {
    match c
    case TRANSLATE_PAGE => SelectsTranslatePage(Some("TRANSLATE_PAGE"));
    case CHANGE_SETTINGS => SelectsChangeSettings(Some("CHANGE_SETTINGS"));
    case DEVELOPER_TOOLS => SelectsDeveloperTools(Some("DEVELOPER_TOOLS"));
    case ZOOM_IN => SelectsZoomIn(Some("ZOOM_IN"));
  }

  /** `HandlerCoverage` for ZOOM_OUT, FIND_ON_PAGE and PRINT_TO_PDF. */
  lemma Coverage5(c: Command)
    requires c in {ZOOM_OUT, FIND_ON_PAGE, PRINT_TO_PDF}
    ensures BranchOf(Some(Name(c))) == if Unhandled(c) then None else Some(c)
  {
    match c
    case ZOOM_OUT => SelectsZoomOut(Some("ZOOM_OUT"));
    case FIND_ON_PAGE => SelectsFindOnPage(Some("FIND_ON_PAGE"));
    case PRINT_TO_PDF => SelectsPrintToPdf(Some("PRINT_TO_PDF"));
  }

  /** `HandlerCoverage` for BOOKMARK_PAGE, SWITCH_TAB and RESIZE_WINDOW. */
  lemma Coverage6(c: Command)
    requires c in {BOOKMARK_PAGE, SWITCH_TAB, RESIZE_WINDOW}
    ensures BranchOf(Some(Name(c))) == if Unhandled(c) then None else Some(c)
  {
    match c
    case BOOKMARK_PAGE => SelectsBookmarkPage(Some("BOOKMARK_PAGE"));
    case SWITCH_TAB => SelectsSwitchTab(Some("SWITCH_TAB"));
    case RESIZE_WINDOW => SelectsResizeWindow(Some("RESIZE_WINDOW"));
  }

  /** `HandlerCoverage` for NEW_CHAT, CRAWL_SITE and TAB_FORMAT_VERTICAL. */
  lemma Coverage7(c: Command)
    requires c in {NEW_CHAT, CRAWL_SITE, TAB_FORMAT_VERTICAL}
    ensures BranchOf(Some(Name(c))) == if Unhandled(c) then None else Some(c)
  {
    match c
    case NEW_CHAT => SelectsNewChat(Some("NEW_CHAT"));
    case CRAWL_SITE => SelectsCrawlSite(Some("CRAWL_SITE"));
    case TAB_FORMAT_VERTICAL => SelectsTabFormatVertical(Some("TAB_FORMAT_VERTICAL"));
  }

  /** `HandlerCoverage` for TAB_FORMAT_HORIZONTAL_MULTIROWE, OPEN_NOTES and PROMPT_DISPLAY. */
  lemma Coverage8(c: Command)
    requires c in {TAB_FORMAT_HORIZONTAL_MULTIROWE, OPEN_NOTES, PROMPT_DISPLAY}
    ensures BranchOf(Some(Name(c))) == if Unhandled(c) then None else Some(c)
  {
    match c
    case TAB_FORMAT_HORIZONTAL_MULTIROWE => SelectsTabFormatHorizontalMultirowe(Some("TAB_FORMAT_HORIZONTAL_MULTIROWE"));
    case OPEN_NOTES => SelectsOpenNotes(Some("OPEN_NOTES"));
    case PROMPT_DISPLAY => SelectsPromptDisplay(Some("PROMPT_DISPLAY"));
  }

  /** The members without a branch: their names fall through the chain. */
  lemma NoBranchForNone()
    ensures BranchOf(Some("NONE")) == None
  {
  }

  lemma NoBranchForPrompt()
    ensures BranchOf(Some("PROMPT")) == None
  {
  }

  lemma NoBranchForNewWindow()
    ensures BranchOf(Some("NEW_WINDOW")) == None
  {
  }

  lemma NoBranchForProcessText()
    ensures BranchOf(Some("PROCESS_TEXT")) == None
  {
  }

  /** Each branch, one at a time: exactly its own wire name selects it. */
  lemma SelectsNavigate(command: Option<string>)
    ensures BranchOf(command) == Some(NAVIGATE) <==> command == Some("NAVIGATE")
  {
  }

  lemma SelectsSearch(command: Option<string>)
    ensures BranchOf(command) == Some(SEARCH) <==> command == Some("SEARCH")
  {
  }

  lemma SelectsNewTab(command: Option<string>)
    ensures BranchOf(command) == Some(NEW_TAB) <==> command == Some("NEW_TAB")
  {
  }

  lemma SelectsCloseTab(command: Option<string>)
    ensures BranchOf(command) == Some(CLOSE_TAB) <==> command == Some("CLOSE_TAB")
  {
  }

  lemma SelectsReload(command: Option<string>)
    ensures BranchOf(command) == Some(RELOAD) <==> command == Some("RELOAD")
  {
  }

  lemma SelectsGoBack(command: Option<string>)
    ensures BranchOf(command) == Some(GO_BACK) <==> command == Some("GO_BACK")
  {
  }

  lemma SelectsGoForward(command: Option<string>)
    ensures BranchOf(command) == Some(GO_FORWARD) <==> command == Some("GO_FORWARD")
  {
  }

  lemma SelectsSetColor(command: Option<string>)
    ensures BranchOf(command) == Some(SET_COLOR) <==> command == Some("SET_COLOR")
  {
  }

  lemma SelectsEditPage(command: Option<string>)
    ensures BranchOf(command) == Some(EDIT_PAGE) <==> command == Some("EDIT_PAGE")
  {
  }

  lemma SelectsEditCode(command: Option<string>)
    ensures BranchOf(command) == Some(EDIT_CODE) <==> command == Some("EDIT_CODE")
  {
  }

  lemma SelectsSetFont(command: Option<string>)
    ensures BranchOf(command) == Some(SET_FONT) <==> command == Some("SET_FONT")
  {
  }

  lemma SelectsUploadFile(command: Option<string>)
    ensures BranchOf(command) == Some(UPLOAD_FILE) <==> command == Some("UPLOAD_FILE")
  {
  }

  lemma SelectsToggleSidebar(command: Option<string>)
    ensures BranchOf(command) == Some(TOGGLE_SIDEBAR) <==> command == Some("TOGGLE_SIDEBAR")
  {
  }

  lemma SelectsManageExtensions(command: Option<string>)
    ensures BranchOf(command) == Some(MANAGE_EXTENSIONS) <==> command == Some("MANAGE_EXTENSIONS")
  {
  }

  lemma SelectsSyncData(command: Option<string>)
    ensures BranchOf(command) == Some(SYNC_DATA) <==> command == Some("SYNC_DATA")
  {
  }

  lemma SelectsTranslatePage(command: Option<string>)
    ensures BranchOf(command) == Some(TRANSLATE_PAGE) <==> command == Some("TRANSLATE_PAGE")
  {
  }

  lemma SelectsChangeSettings(command: Option<string>)
    ensures BranchOf(command) == Some(CHANGE_SETTINGS) <==> command == Some("CHANGE_SETTINGS")
  {
  }

  lemma SelectsDeveloperTools(command: Option<string>)
    ensures BranchOf(command) == Some(DEVELOPER_TOOLS) <==> command == Some("DEVELOPER_TOOLS")
  {
  }

  lemma SelectsZoomIn(command: Option<string>)
    ensures BranchOf(command) == Some(ZOOM_IN) <==> command == Some("ZOOM_IN")
  {
  }

  lemma SelectsZoomOut(command: Option<string>)
    ensures BranchOf(command) == Some(ZOOM_OUT) <==> command == Some("ZOOM_OUT")
  {
  }

  lemma SelectsFindOnPage(command: Option<string>)
    ensures BranchOf(command) == Some(FIND_ON_PAGE) <==> command == Some("FIND_ON_PAGE")
  {
  }

  lemma SelectsPrintToPdf(command: Option<string>)
    ensures BranchOf(command) == Some(PRINT_TO_PDF) <==> command == Some("PRINT_TO_PDF")
  {
  }

  lemma SelectsBookmarkPage(command: Option<string>)
    ensures BranchOf(command) == Some(BOOKMARK_PAGE) <==> command == Some("BOOKMARK_PAGE")
  {
  }

  lemma SelectsSwitchTab(command: Option<string>)
    ensures BranchOf(command) == Some(SWITCH_TAB) <==> command == Some("SWITCH_TAB")
  {
  }

  lemma SelectsResizeWindow(command: Option<string>)
    ensures BranchOf(command) == Some(RESIZE_WINDOW) <==> command == Some("RESIZE_WINDOW")
  {
  }

  lemma SelectsNewChat(command: Option<string>)
    ensures BranchOf(command) == Some(NEW_CHAT) <==> command == Some("NEW_CHAT")
  {
  }

  lemma SelectsCrawlSite(command: Option<string>)
    ensures BranchOf(command) == Some(CRAWL_SITE) <==> command == Some("CRAWL_SITE")
  {
  }

  lemma SelectsTabFormatVertical(command: Option<string>)
    ensures BranchOf(command) == Some(TAB_FORMAT_VERTICAL) <==> command == Some("TAB_FORMAT_VERTICAL")
  {
  }

  lemma SelectsTabFormatHorizontalMultirowe(command: Option<string>)
    ensures BranchOf(command) == Some(TAB_FORMAT_HORIZONTAL_MULTIROWE) <==> command == Some("TAB_FORMAT_HORIZONTAL_MULTIROWE")
  {
  }

  lemma SelectsOpenNotes(command: Option<string>)
    ensures BranchOf(command) == Some(OPEN_NOTES) <==> command == Some("OPEN_NOTES")
  {
  }

  lemma SelectsPromptDisplay(command: Option<string>)
    ensures BranchOf(command) == Some(PROMPT_DISPLAY) <==> command == Some("PROMPT_DISPLAY")
  {
  }

  /** The dispatcher never selects a branch for a member it has none for. */
  lemma BranchIsHandled(command: Option<string>)
    ensures BranchOf(command).Some? ==> !Unhandled(BranchOf(command).value)
  {
  }

  /** The branch a command selects is the member whose wire name it is. */
  lemma BranchOfNamesMember(command: Option<string>)
    ensures BranchOf(command).Some? ==> command == Some(Name(BranchOf(command).value))
  {
    if BranchOf(command).Some? {
      var c := BranchOf(command).value;
      if c in {NAVIGATE, SEARCH, NONE, PROMPT, NEW_TAB} {
        NamesMember0(command);
      } else if c in {CLOSE_TAB, RELOAD, GO_BACK, GO_FORWARD, SET_COLOR} {
        NamesMember1(command);
      } else if c in {EDIT_PAGE, NEW_WINDOW, EDIT_CODE, SET_FONT, UPLOAD_FILE} {
        NamesMember2(command);
      } else if c in {TOGGLE_SIDEBAR, PROCESS_TEXT, MANAGE_EXTENSIONS, SYNC_DATA} {
        NamesMember3(command);
      } else if c in {TRANSLATE_PAGE, CHANGE_SETTINGS, DEVELOPER_TOOLS, ZOOM_IN} {
        NamesMember4(command);
      } else if c in {ZOOM_OUT, FIND_ON_PAGE, PRINT_TO_PDF} {
        NamesMember5(command);
      } else if c in {BOOKMARK_PAGE, SWITCH_TAB, RESIZE_WINDOW} {
        NamesMember6(command);
      } else if c in {NEW_CHAT, CRAWL_SITE, TAB_FORMAT_VERTICAL} {
        NamesMember7(command);
      } else {
        NamesMember8(command);
      }
    }
  }

  /** `BranchOfNamesMember` for the branches of NAVIGATE, SEARCH, NONE, PROMPT and NEW_TAB. */
  lemma NamesMember0(command: Option<string>)
    requires BranchOf(command).Some? && BranchOf(command).value in {NAVIGATE, SEARCH, NONE, PROMPT, NEW_TAB}
    ensures command == Some(Name(BranchOf(command).value))
  {
    match BranchOf(command).value
    case NAVIGATE => SelectsNavigate(command);
    case SEARCH => SelectsSearch(command);
    case NONE => assert false;
    case PROMPT => assert false;
    case NEW_TAB => SelectsNewTab(command);
  }

  /** `BranchOfNamesMember` for the branches of CLOSE_TAB, RELOAD, GO_BACK, GO_FORWARD and SET_COLOR. */
  lemma NamesMember1(command: Option<string>)
    requires BranchOf(command).Some? && BranchOf(command).value in {CLOSE_TAB, RELOAD, GO_BACK, GO_FORWARD, SET_COLOR}
    ensures command == Some(Name(BranchOf(command).value))
  {
    match BranchOf(command).value
    case CLOSE_TAB => SelectsCloseTab(command);
    case RELOAD => SelectsReload(command);
    case GO_BACK => SelectsGoBack(command);
    case GO_FORWARD => SelectsGoForward(command);
    case SET_COLOR => SelectsSetColor(command);
  }

  /** `BranchOfNamesMember` for the branches of EDIT_PAGE, NEW_WINDOW, EDIT_CODE, SET_FONT and UPLOAD_FILE. */
  lemma NamesMember2(command: Option<string>)
    requires BranchOf(command).Some? && BranchOf(command).value in {EDIT_PAGE, NEW_WINDOW, EDIT_CODE, SET_FONT, UPLOAD_FILE}
    ensures command == Some(Name(BranchOf(command).value))
  {
    match BranchOf(command).value
    case EDIT_PAGE => SelectsEditPage(command);
    case NEW_WINDOW => assert false;
    case EDIT_CODE => SelectsEditCode(command);
    case SET_FONT => SelectsSetFont(command);
    case UPLOAD_FILE => SelectsUploadFile(command);
  }

  /** `BranchOfNamesMember` for the branches of TOGGLE_SIDEBAR, PROCESS_TEXT, MANAGE_EXTENSIONS and SYNC_DATA. */
  lemma NamesMember3(command: Option<string>)
    requires BranchOf(command).Some? && BranchOf(command).value in {TOGGLE_SIDEBAR, PROCESS_TEXT, MANAGE_EXTENSIONS, SYNC_DATA}
    ensures command == Some(Name(BranchOf(command).value))
  {
    match BranchOf(command).value
    case TOGGLE_SIDEBAR => SelectsToggleSidebar(command);
    case PROCESS_TEXT => assert false;
    case MANAGE_EXTENSIONS => SelectsManageExtensions(command);
    case SYNC_DATA => SelectsSyncData(command);
  }

  /** `BranchOfNamesMember` for the branches of TRANSLATE_PAGE, CHANGE_SETTINGS, DEVELOPER_TOOLS and ZOOM_IN. */
  lemma NamesMember4(command: Option<string>)
    requires BranchOf(command).Some? && BranchOf(command).value in {TRANSLATE_PAGE, CHANGE_SETTINGS, DEVELOPER_TOOLS, ZOOM_IN}
    ensures command == Some(Name(BranchOf(command).value))
  {
    match BranchOf(command).value
    case TRANSLATE_PAGE => SelectsTranslatePage(command);
    case CHANGE_SETTINGS => SelectsChangeSettings(command);
    case DEVELOPER_TOOLS => SelectsDeveloperTools(command);
    case ZOOM_IN => SelectsZoomIn(command);
  }

  /** `BranchOfNamesMember` for the branches of ZOOM_OUT, FIND_ON_PAGE and PRINT_TO_PDF. */
  lemma NamesMember5(command: Option<string>)
    requires BranchOf(command).Some? && BranchOf(command).value in {ZOOM_OUT, FIND_ON_PAGE, PRINT_TO_PDF}
    ensures command == Some(Name(BranchOf(command).value))
  {
    match BranchOf(command).value
    case ZOOM_OUT => SelectsZoomOut(command);
    case FIND_ON_PAGE => SelectsFindOnPage(command);
    case PRINT_TO_PDF => SelectsPrintToPdf(command);
  }

  /** `BranchOfNamesMember` for the branches of BOOKMARK_PAGE, SWITCH_TAB and RESIZE_WINDOW. */
  lemma NamesMember6(command: Option<string>)
    requires BranchOf(command).Some? && BranchOf(command).value in {BOOKMARK_PAGE, SWITCH_TAB, RESIZE_WINDOW}
    ensures command == Some(Name(BranchOf(command).value))
  {
    match BranchOf(command).value
    case BOOKMARK_PAGE => SelectsBookmarkPage(command);
    case SWITCH_TAB => SelectsSwitchTab(command);
    case RESIZE_WINDOW => SelectsResizeWindow(command);
  }

  /** `BranchOfNamesMember` for the branches of NEW_CHAT, CRAWL_SITE and TAB_FORMAT_VERTICAL. */
  lemma NamesMember7(command: Option<string>)
    requires BranchOf(command).Some? && BranchOf(command).value in {NEW_CHAT, CRAWL_SITE, TAB_FORMAT_VERTICAL}
    ensures command == Some(Name(BranchOf(command).value))
  {
    match BranchOf(command).value
    case NEW_CHAT => SelectsNewChat(command);
    case CRAWL_SITE => SelectsCrawlSite(command);
    case TAB_FORMAT_VERTICAL => SelectsTabFormatVertical(command);
  }

  /** `BranchOfNamesMember` for the branches of TAB_FORMAT_HORIZONTAL_MULTIROWE, OPEN_NOTES and PROMPT_DISPLAY. */
  lemma NamesMember8(command: Option<string>)
    requires BranchOf(command).Some? && BranchOf(command).value in {TAB_FORMAT_HORIZONTAL_MULTIROWE, OPEN_NOTES, PROMPT_DISPLAY}
    ensures command == Some(Name(BranchOf(command).value))
  {
    match BranchOf(command).value
    case TAB_FORMAT_HORIZONTAL_MULTIROWE => SelectsTabFormatHorizontalMultirowe(command);
    case OPEN_NOTES => SelectsOpenNotes(command);
    case PROMPT_DISPLAY => SelectsPromptDisplay(command);
  }

  /** Every name the dispatcher tests for is a vocabulary member, and
      selects that member's branch. */
  lemma BranchNamesInVocabulary(name: string)
    requires BranchOf(Some(name)).Some?
    ensures FromName(name) == BranchOf(Some(name))
  {
    BranchOfNamesMember(Some(name));
    FromNameName(BranchOf(Some(name)).value);
  }

  /** One event after the message and the indicator. */
  lemma ShownThen(s: Session, message: Option<string>, e: Event)
    ensures Shown(s, message).(log := Shown(s, message).log + [e])
         == s.(log := s.log + [Typed(message), ThinkingHidden, e])
  {
    assert Shown(s, message).log + [e] == s.log + [Typed(message), ThinkingHidden, e];
  }

  /** A command with no branch, or no command at all, changes no session
      field: only the message and the indicator are shown. */
  lemma UnhandledChangesNothing(s: Session, intent: Intent, ui: UiAnswers)
    requires Valid(s)
    requires || intent.command.None?
             || FromName(intent.command.value).None?
             || Unhandled(FromName(intent.command.value).value)
    ensures PerformAction(s, intent, ui) == Done(Shown(s, intent.message))
  {
    match intent.command
    case None =>
      NoBranchForMissing();
    case Some(name) =>
      if BranchOf(Some(name)).Some? {
        BranchNamesInVocabulary(name);
        BranchIsHandled(Some(name));
        assert false;
      }
  }

  /** A reply without a command selects no branch. */
  lemma NoBranchForMissing()
    ensures BranchOf(None) == None
  {
  }

  /** A command selecting branch `c` runs it after the message is shown.
      The command lemmas below take any intent whose command selects their
      branch; by the `Selects` lemmas that is exactly the member's name. */
  lemma RunsBranch(s: Session, intent: Intent, c: Command, ui: UiAnswers)
    requires Valid(s) && BranchOf(intent.command) == Some(c)
    ensures PerformAction(s, intent, ui) == Branch(Shown(s, intent.message), c, intent.query, ui)
  {
  }

  /** What a branch may change: only `NEW_TAB` with a count that is not an
      integer and `SWITCH_TAB` without a query raise; only the tab commands
      move tabs or the selection, only `CLOSE_TAB` the closed-tab stack,
      and no branch changes the home page or the search prefix. */
  lemma BranchFrame(s: Session, c: Command, query: Option<string>, ui: UiAnswers)
    requires Valid(s)
    ensures var r := Branch(s, c, query, ui);
      && (r.Raised? <==>
            || (c == NEW_TAB && query.Some? && query != Some("") && ParseInt(query.value).None?)
            || (c == SWITCH_TAB && query.None?))
      && (r.session.tabs != s.tabs ==> c in {NAVIGATE, SEARCH, NEW_TAB, CLOSE_TAB})
      && (r.session.current != s.current ==> c in {NAVIGATE, SEARCH, NEW_TAB, CLOSE_TAB, SWITCH_TAB})
      && (r.session.closedTabs != s.closedTabs ==> c == CLOSE_TAB)
      && r.session.home == s.home && r.session.searchUrl == s.searchUrl
  {
    if IsTabCommand(c) {
      TabBranchRuns(s, c, query, ui);
      TabBranchFrame(s, c, query, ui);
    } else if IsChromeCommand(c) {
      assert Branch(s, c, query, ui) == Done(ChromeBranch(s, c));
    } else {
      ReactionRuns(s, c, query, ui);
    }
  }

  /** `BranchFrame` for a whole reply: the exceptions and the fields each
      command may change, in terms of the command string. */
  lemma ActionFrame(s: Session, intent: Intent, ui: UiAnswers)
    requires Valid(s)
    ensures var r := PerformAction(s, intent, ui);
      var b := BranchOf(intent.command);
      && (r.Raised? <==>
            || (b == Some(NEW_TAB) && intent.query.Some? && intent.query != Some("")
                && ParseInt(intent.query.value).None?)
            || (b == Some(SWITCH_TAB) && intent.query.None?))
      && (r.session.tabs != s.tabs ==> b in {Some(NAVIGATE), Some(SEARCH), Some(NEW_TAB), Some(CLOSE_TAB)})
      && (r.session.current != s.current ==>
            b in {Some(NAVIGATE), Some(SEARCH), Some(NEW_TAB), Some(CLOSE_TAB), Some(SWITCH_TAB)})
      && (r.session.closedTabs != s.closedTabs ==> b == Some(CLOSE_TAB))
      && r.session.home == s.home && r.session.searchUrl == s.searchUrl
  {
    if BranchOf(intent.command).Some? {
      var c := BranchOf(intent.command).value;
      RunsBranch(s, intent, c, ui);
      BranchFrame(Shown(s, intent.message), c, intent.query, ui);
    }
  }

  /** The tab branches are exactly `TabBranch`. */
  lemma TabBranchRuns(s: Session, c: Command, query: Option<string>, ui: UiAnswers)
    requires Valid(s) && IsTabCommand(c)
    ensures Branch(s, c, query, ui) == TabBranch(s, c, query, ui)
  {
  }

  /** What a tab branch raises and which fields it may change: only the
      tabs, the current index, the closed-tab stack, the window and the log;
      `SWITCH_TAB` leaves the tabs alone and only `CLOSE_TAB` touches the
      stack. */
  lemma TabBranchFrame(s: Session, c: Command, query: Option<string>, ui: UiAnswers)
    requires Valid(s) && IsTabCommand(c)
    ensures var r := TabBranch(s, c, query, ui);
      && (r.Raised? <==>
            || (c == NEW_TAB && query.Some? && query != Some("") && ParseInt(query.value).None?)
            || (c == SWITCH_TAB && query.None?))
      && (r.session.tabs != s.tabs ==> c != SWITCH_TAB)
      && (r.session.closedTabs != s.closedTabs ==> c == CLOSE_TAB)
      && r.session == s.(tabs := r.session.tabs, current := r.session.current,
                         closedTabs := r.session.closedTabs, windowOpen := r.session.windowOpen,
                         log := r.session.log)
  {
  }

  /** Every branch that is neither a tab nor a chrome branch only appends
      its reaction to the log. */
  lemma ReactionRuns(s: Session, c: Command, query: Option<string>, ui: UiAnswers)
    requires Valid(s) && !IsTabCommand(c) && !IsChromeCommand(c)
    ensures Branch(s, c, query, ui) == Done(s.(log := s.log + Reaction(c, query, ui)))
  {
  }

  /** The history branches: RELOAD, GO_BACK and GO_FORWARD call reload,
      back and forward on the active tab. */
  lemma HistoryEvents(query: Option<string>, ui: UiAnswers)
    ensures Reaction(RELOAD, query, ui) == [OnActiveTab(Reload)]
    ensures Reaction(GO_BACK, query, ui) == [OnActiveTab(GoBack)]
    ensures Reaction(GO_FORWARD, query, ui) == [OnActiveTab(GoForward)]
  {
  }

  /** The script branches: EDIT_PAGE runs the query in the page,
      TRANSLATE_PAGE runs the translation script for it, and
      DEVELOPER_TOOLS triggers the page's inspect action. */
  lemma ScriptEvents(query: Option<string>, ui: UiAnswers)
    ensures Reaction(EDIT_PAGE, query, ui) == [OnActiveTab(RunJavaScript(QtString(query)))]
    ensures Reaction(TRANSLATE_PAGE, query, ui) == [OnActiveTab(Translate(Format(query)))]
    ensures Reaction(DEVELOPER_TOOLS, query, ui) == [OnActiveTab(InspectElement)]
  {
  }

  /** The view branches: zooming in and out, finding the query, and
      fetching the page's HTML for CRAWL_SITE. */
  lemma ViewEvents(query: Option<string>, ui: UiAnswers)
    ensures Reaction(ZOOM_IN, query, ui) == [OnActiveTab(ZoomIn)]
    ensures Reaction(ZOOM_OUT, query, ui) == [OnActiveTab(ZoomOut)]
    ensures Reaction(FIND_ON_PAGE, query, ui) == [OnActiveTab(FindText(QtString(query)))]
    ensures Reaction(CRAWL_SITE, query, ui) == [OnActiveTab(FetchHtml)]
  {
  }

  /** The file-dialog branches act on the chosen path, and do nothing when
      the dialog was cancelled. */
  lemma DialogEvents(query: Option<string>, ui: UiAnswers)
    ensures Reaction(PRINT_TO_PDF, query, ui) ==
      (if ui.pdfPath == "" then [] else [OnActiveTab(PrintToPdf(ui.pdfPath))])
    ensures Reaction(UPLOAD_FILE, query, ui) ==
      (if ui.uploadPath == "" then [] else [Said(FileSelected(ui.uploadPath))])
  {
  }

  /** SET_COLOR and SET_FONT set a style sheet from the query; EDIT_CODE
      shows its status-bar message. */
  lemma StyleEvents(query: Option<string>, ui: UiAnswers)
    ensures Reaction(SET_COLOR, query, ui) == [BackgroundSet(Format(query))]
    ensures Reaction(SET_FONT, query, ui) == [FontSet(Format(query))]
    ensures Reaction(EDIT_CODE, query, ui) == [StatusShown(EditCodeDisabled)]
  {
  }

  /** NEW_CHAT clears the chat, OPEN_NOTES shows the notes and
      PROMPT_DISPLAY types the query. */
  lemma PanelEvents(query: Option<string>, ui: UiAnswers)
    ensures Reaction(NEW_CHAT, query, ui) == [ChatCleared]
    ensures Reaction(OPEN_NOTES, query, ui) == [NotesShown]
    ensures Reaction(PROMPT_DISPLAY, query, ui) == [Typed(query)]
  {
  }

  /** NAVIGATE appends one tab at the query and makes it current; existing
      tabs are untouched. */
  lemma NavigateCommand(s: Session, intent: Intent, ui: UiAnswers)
    requires Valid(s) && BranchOf(intent.command) == Some(NAVIGATE)
    ensures var r := PerformAction(s, intent, ui);
      && r.Done?
      && r.session.tabs == s.tabs + [QtString(intent.query)]
      && r.session.current == |s.tabs|
      && r.session.closedTabs == s.closedTabs
  {
    RunsBranch(s, intent, NAVIGATE, ui);
  }

  /** SEARCH appends one tab at the search prefix followed by the query text
      exactly as given (no URL encoding; a missing query reads "None") and
      makes it current. */
  lemma SearchCommand(s: Session, intent: Intent, ui: UiAnswers)
    requires Valid(s) && BranchOf(intent.command) == Some(SEARCH)
    ensures var r := PerformAction(s, intent, ui);
      && r.Done?
      && r.session.tabs == s.tabs + [s.searchUrl + Format(intent.query)]
      && r.session.current == |s.tabs|
  {
    RunsBranch(s, intent, SEARCH, ui);
  }

  /** The NEW_TAB branch opens one home tab for an empty or missing count,
      `max(n, 0)` for a count `n`, and makes the last opened tab current;
      a count that is not an integer raises `ValueError` and changes
      nothing. */
  lemma NewTabsCount(s: Session, query: Option<string>)
    requires Valid(s)
    ensures var r := NewTabs(s, query);
      var count := if query.None? || query == Some("") then 1
                   else if ParseInt(query.value).Some? then ParseInt(query.value).value else 0;
      && (r.Raised? <==> query.Some? && query != Some("") && ParseInt(query.value).None?)
      && (r.Raised? ==> r.error == ValueError && r.session == s)
      && (r.Done? ==> |r.session.tabs| == |s.tabs| + (if count > 0 then count else 0))
      && r.session.tabs[..|s.tabs|] == s.tabs
      && (forall i :: |s.tabs| <= i < |r.session.tabs| ==> r.session.tabs[i] == s.home)
      && (r.Done? && count > 0 ==> r.session.current == |r.session.tabs| - 1)
      && (count <= 0 ==> r.session.current == s.current)
  {
  }

  /** NEW_TAB runs the NEW_TAB branch after the message is shown. */
  lemma NewTabCommand(s: Session, intent: Intent, ui: UiAnswers)
    requires Valid(s) && BranchOf(intent.command) == Some(NEW_TAB)
    ensures PerformAction(s, intent, ui) == NewTabs(Shown(s, intent.message), intent.query)
  {
    RunsBranch(s, intent, NEW_TAB, ui);
    TabBranchRuns(Shown(s, intent.message), NEW_TAB, intent.query, ui);
  }

  /** CLOSE_TAB on the last tab closes the window and keeps the tab; on more
      tabs it removes exactly the current tab and remembers its address. */
  lemma CloseTabCommand(s: Session, intent: Intent, ui: UiAnswers)
    requires Valid(s) && BranchOf(intent.command) == Some(CLOSE_TAB)
    ensures var r := PerformAction(s, intent, ui);
      && r.Done?
      && (|s.tabs| < 2 ==>
            !r.session.windowOpen && r.session.tabs == s.tabs && r.session.closedTabs == s.closedTabs)
      && (|s.tabs| >= 2 ==>
            r.session.tabs == RemoveAt(s.tabs, s.current)
            && r.session.closedTabs == s.closedTabs + [s.tabs[s.current]])
  {
    RunsBranch(s, intent, CLOSE_TAB, ui);
  }

  /** The SWITCH_TAB branch: a number `n` from 1 to the number of tabs
      selects tab `n`; any other number, or text that is not a number,
      leaves the selection and says why; no query at all raises
      `TypeError`. */
  lemma SwitchTabRange(s: Session, query: Option<string>)
    requires Valid(s)
    ensures var r := SwitchTab(s, query);
      && (query.None? ==> r == Raised(TypeError, s))
      && (query.Some? && ParseInt(query.value).None? ==>
            r == Done(s.(log := s.log + [Said(TabNumberInvalid)])))
      && (query.Some? && ParseInt(query.value).Some? ==>
            var n := ParseInt(query.value).value;
            if 1 <= n <= |s.tabs| then r == Done(s.(current := n - 1))
            else r == Done(s.(log := s.log + [Said(TabOutOfRange)])))
  {
  }

  /** SWITCH_TAB runs the SWITCH_TAB branch after the message is shown. */
  lemma SwitchTabCommand(s: Session, intent: Intent, ui: UiAnswers)
    requires Valid(s) && BranchOf(intent.command) == Some(SWITCH_TAB)
    ensures PerformAction(s, intent, ui) == SwitchTab(Shown(s, intent.message), intent.query)
  {
    RunsBranch(s, intent, SWITCH_TAB, ui);
    TabBranchRuns(Shown(s, intent.message), SWITCH_TAB, intent.query, ui);
  }

  /** A placeholder command only types its fixed sentence after the message. */
  lemma PlaceholderCommand(s: Session, intent: Intent, c: Command, ui: UiAnswers)
    requires Valid(s) && IsPlaceholder(c) && BranchOf(intent.command) == Some(c)
    ensures PerformAction(s, intent, ui)
         == Done(s.(log := s.log + [Typed(intent.message), ThinkingHidden, Said(PlaceholderSentence(c))]))
  {
    var shown := Shown(s, intent.message);
    RunsBranch(s, intent, c, ui);
    ReactionRuns(shown, c, intent.query, ui);
    PlaceholderReaction(c, intent.query, ui);
    ShownThen(s, intent.message, Said(PlaceholderSentence(c)));
  }

  /** TOGGLE_SIDEBAR flips the panel, and applied twice gives back every
      field but the log. */
  lemma ToggleSidebarTwice(s: Session, i1: Intent, i2: Intent, ui: UiAnswers)
    requires Valid(s)
    requires BranchOf(i1.command) == Some(TOGGLE_SIDEBAR) && BranchOf(i2.command) == Some(TOGGLE_SIDEBAR)
    ensures var r1 := PerformAction(s, i1, ui);
      var r2 := PerformAction(r1.session, i2, ui);
      && r1.session.sidebarVisible != s.sidebarVisible
      && r2.session == s.(log := r2.session.log)
  {
    RunsBranch(s, i1, TOGGLE_SIDEBAR, ui);
    var r1 := PerformAction(s, i1, ui);
    RunsBranch(r1.session, i2, TOGGLE_SIDEBAR, ui);
  }

  /** A TAB_FORMAT command sets its layout, and applying it a second time
      leaves every field but the log as the first application left it. */
  lemma TabFormatIdempotent(s: Session, i1: Intent, i2: Intent, c: Command, ui: UiAnswers)
    requires Valid(s) && (c == TAB_FORMAT_VERTICAL || c == TAB_FORMAT_HORIZONTAL_MULTIROWE)
    requires BranchOf(i1.command) == Some(c) && BranchOf(i2.command) == Some(c)
    ensures var r1 := PerformAction(s, i1, ui);
      var r2 := PerformAction(r1.session, i2, ui);
      && r1.session.layout == (if c == TAB_FORMAT_VERTICAL then Vertical else Horizontal)
      && r2.session == r1.session.(log := r2.session.log)
  {
    RunsBranch(s, i1, c, ui);
    var r1 := PerformAction(s, i1, ui);
    RunsBranch(r1.session, i2, c, ui);
  }

  /** CRAWL_SITE only asks the active page for its HTML; the summary comes
      later, from `OnCrawledHtml`. */
  lemma CrawlSiteCommand(s: Session, intent: Intent, ui: UiAnswers)
    requires Valid(s) && BranchOf(intent.command) == Some(CRAWL_SITE)
    ensures PerformAction(s, intent, ui)
         == Done(s.(log := s.log + [Typed(intent.message), ThinkingHidden, OnActiveTab(FetchHtml)]))
  {
    var shown := Shown(s, intent.message);
    RunsBranch(s, intent, CRAWL_SITE, ui);
    ReactionRuns(shown, CRAWL_SITE, intent.query, ui);
    assert Reaction(CRAWL_SITE, intent.query, ui) == [OnActiveTab(FetchHtml)];
    ShownThen(s, intent.message, OnActiveTab(FetchHtml));
  }

  /** The PROMPT_DISPLAY branch types the query. */
  lemma PromptDisplayBranch(s: Session, query: Option<string>, ui: UiAnswers)
    requires Valid(s)
    ensures Branch(s, PROMPT_DISPLAY, query, ui) == Done(s.(log := s.log + [Typed(query)]))
  {
    assert Reaction(PROMPT_DISPLAY, query, ui) == [Typed(query)];
    ReactionRuns(s, PROMPT_DISPLAY, query, ui);
  }

  /** PROMPT_DISPLAY types the query after the (usually empty) message. */
  lemma PromptDisplayCommand(s: Session, intent: Intent, ui: UiAnswers)
    requires Valid(s) && BranchOf(intent.command) == Some(PROMPT_DISPLAY)
    ensures PerformAction(s, intent, ui)
         == Done(s.(log := s.log + [Typed(intent.message), ThinkingHidden, Typed(intent.query)]))
  {
    RunsBranch(s, intent, PROMPT_DISPLAY, ui);
    PromptDisplayBranch(Shown(s, intent.message), intent.query, ui);
    ShownThen(s, intent.message, Typed(intent.query));
  }
}
