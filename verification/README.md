# Ringzauber browser core in Dafny

Ringzauber is a small web browser. Its assistant, Praterich, turns a user's
request into a JSON intent `{"command", "query", "message"}`, and the
browser window then carries that intent out. This project models two
parts of it as pure functions over immutable records:

- **The browser session** (`ringzauber.py`). A `Session` record holds:
  - the tabs' addresses in display order and the current index;
  - the stack of closed-tab addresses, most recent last;
  - the assistant panel's visibility, the tab layout, and whether the window is open;
  - the URL bar, the home page and the search prefix;
  - a log of everything the window shows or asks of a page.

  The model covers:
  - opening, closing and reopening tabs;
  - the tab-cycling shortcuts;
  - the URL bar's address normaliser;
  - the search-engine preference;
  - the command dispatcher `perform_praterich_action`, which runs one branch per command.

  A dispatcher branch that only calls into the page or into Qt leaves a log event (`OnActiveTab(Reload)`, `BackgroundSet(color)`, …). An exception that escapes a branch is a `Raised` outcome.
- **The assistant's front end** (`praterich_ai.py`):
  - the fence-stripping clean-up of the language model's reply;
  - the closed vocabulary of 35 commands;
  - the `NONE` error envelopes, written and read back through a model of `json.dumps` string escaping;
  - the command-line entry point;
  - `get_praterich_response_text`, which never raises.

  The language-model call is a parameter: a `Reply`, which is either a text (possibly `None`) or an exception message.

Supporting modules:
- `Wrappers` holds `Option`.
- `PyStr` models the Python `str` behaviour the code relies on: Unicode `isspace`/`strip`, `startswith`/`endswith`, `lower` on the characters whose lower case is ASCII, f-string formatting of an optional value, and `int()` on decimal text.
- `JsonText` models `json.dumps` string escaping with `ensure_ascii`, and a decoder that reads the escapes back.

Module layout: `Wrappers`, `PyStr`, `JsonText`, `Vocabulary`, `Praterich`,
`SearchEngine`, `Browser`, `Dispatch`, `DispatchProperties`.

## Model

The dispatcher lemmas in `DispatchProperties` (`NavigateCommand`,
`SearchCommand` and the others) take any intent whose command selects the
branch. The `Selects…` lemmas pin that down: a branch is selected by its own
wire name and by no other command string.

| member | source | states |
|---|---|---|
| PyStr.Strip | praterich_ai.py:78 | `strip()` gives a result with no whitespace at either end; it is one slice of the input, and everything cut off on either side is whitespace |
| PyStr.IsSpace | praterich_ai.py:78 | the characters `strip()` removes: Python's `str.isspace` set (the ASCII controls U+0009–U+000D and U+001C–U+001F, the space, U+0085, U+00A0, U+1680, U+2000–U+200A, U+2028, U+2029, U+202F, U+205F and U+3000); `Strip`, `LStrip` and `RStrip` state what is cut in its terms |
| PyStr.SkipSpace | praterich_ai.py:78 | the scan from the left stops at the first non-whitespace character, or at the end; everything it passes is whitespace |
| PyStr.SkipSpaceBack | praterich_ai.py:78 | the scan from the right stops just after the last non-whitespace character, or at the start; everything it passes is whitespace |
| PyStr.SkipSpaceUnique | praterich_ai.py:78 | any position with only whitespace before it and a non-space character, or the end, at it is where the left scan stops |
| PyStr.LStrip | praterich_ai.py:78 | `lstrip()` keeps a suffix of the input that does not start with whitespace, and removes only whitespace |
| PyStr.RStrip | praterich_ai.py:78 | `rstrip()` keeps a prefix of the input that does not end with whitespace, and removes only whitespace |
| PyStr.StripTrimmed | praterich_ai.py:78 | stripping text with no whitespace at either end changes nothing |
| PyStr.LStripAppend | praterich_ai.py:81 | left-stripping text followed by a non-space suffix only strips the front part |
| PyStr.StripIdempotent | praterich_ai.py:83 | stripping twice is the same as stripping once |
| PyStr.ParseInt | ringzauber.py:307 | `int(text)` succeeds exactly on an optional sign and a digit group (single underscores between digits) of at most 4300 digits, CPython's default cap, once the blanks `int()` skips are gone at both ends: the `str.isspace` characters except the information separators U+001C–U+001F, so `int("\x1c5")` fails as in CPython; a negative value has a leading minus |
| PyStr.IntStrip | ringzauber.py:307 | the text `int()` converts is one slice of the input, bounded by characters it does not skip, with only skipped blanks around it |
| PyStr.IntStripIsStrip | ringzauber.py:307 | for text without information separators, `int()` skips exactly what `strip()` removes |
| PyStr.IntBlanks | ringzauber.py:307 | a leading U+001C makes `int()` fail, while a leading U+0085 and ordinary spaces and newlines are skipped |
| PyStr.ParseShow | ringzauber.py:307 | the reference inverse of `int()`: every integer whose decimal rendering has at most 4300 digits reads back as itself |
| PyStr.Lower | ringzauber.py:66 | `.lower()` keeps the length and lowers each character on its own: ASCII capitals to their small letters and the Kelvin sign to `k`, the only characters whose lower case is ASCII; `SearchEngine.WizardNamesSelectTheirEngine` and `SearchEngine.KelvinSignSelectsDuckDuckGo` use it |
| PyStr.NatDigits | ringzauber.py:307 | the reference decimal rendering `int()` is checked against: non-empty, all digits, no leading zero |
| JsonText.EscapeChar | praterich_ai.py:88 | each character is written as printable ASCII: as itself when it is printable and not a quote or backslash, otherwise as an escape starting with a backslash |
| JsonText.Escape | praterich_ai.py:88 | the body of the string literal `json.dumps` writes, one `EscapeChar` per character, never shorter than the string; `JsonText.ScanEscape` reads it back and `JsonText.EscapeIsAscii` keeps it printable ASCII |
| JsonText.EscapeIsAscii | praterich_ai.py:88 | everything `json.dumps` writes for a string is printable ASCII |
| JsonText.ScanEscape | praterich_ai.py:88 | reading an escaped string back up to its closing quote yields the original string and leaves the text after the quote |
| JsonText.Hex4Parse | praterich_ai.py:88 | a four-digit `\uXXXX` hex code reads back as the code unit it was written from |
| JsonText.LoadsDumpsIntent | praterich_ai.py:88 | a rendered `{"command", "query", "message"}` object reads back as exactly its three values, whatever characters they hold |
| JsonText.DumpsIntent | praterich_ai.py:88 | `json.dumps` of the three-key object: text in braces; `JsonText.LoadsDumpsIntent` reads back exactly the three values from it |
| Vocabulary.AdvertisedIsVocabulary | praterich_ai.py:18-53 | the advertised list has 35 entries, names every command, and names each command only once |
| Vocabulary.Position | praterich_ai.py:19-53 | every command has a position below 35 in the advertised list |
| Vocabulary.AtPositionOfPosition | praterich_ai.py:19-53 | each command is found at its own position |
| Vocabulary.PositionOfAtPosition | praterich_ai.py:19-53 | each position below 35 holds a command whose position it is |
| Vocabulary.Advertised | praterich_ai.py:18-53 | the advertised list has exactly 35 entries |
| Vocabulary.FromNameName | praterich_ai.py:19-53 | every command's wire name reads back as that command, so no two commands share a name |
| Vocabulary.FromName | praterich_ai.py:19-53 | a text that reads as a command is exactly that command's wire name |
| Vocabulary.FromNameIff | praterich_ai.py:19-53 | a text reads as command c exactly when it is c's wire name |
| Vocabulary.NameInjective | praterich_ai.py:19-53 | no two of the 35 commands share a wire name |
| Praterich.CleanReply | praterich_ai.py:78-83 | the cleaned reply has no whitespace at either end and is no longer than the raw text |
| Praterich.DropOpener | praterich_ai.py:80-81 | cutting one leading "```json" and stripping again gives a trimmed slice of the text, or the text itself when it has no opener |
| Praterich.DropCloser | praterich_ai.py:82-83 | cutting one trailing "```" and stripping again gives a trimmed slice of the text, or the text itself when it has no closer |
| Praterich.CleanReplyIsSlice | praterich_ai.py:78-83 | the cleaned reply is one contiguous run of the raw reply |
| Praterich.CleanFenced | praterich_ai.py:80-83 | cleaning "```json" + p + "```" yields strip(p) for every p |
| Praterich.OpenerDropped | praterich_ai.py:80-81 | removing the opener from fenced text leaves the content, left-stripped, followed by the closer |
| Praterich.CloserDropped | praterich_ai.py:82-83 | removing the closer from text ending with it leaves the stripped text before it |
| Praterich.CleanUnfenced | praterich_ai.py:78-83 | text whose stripped form neither starts with "```json" nor ends with "```" comes back only stripped |
| Praterich.CleanBareObject | praterich_ai.py:78-83 | a bare `{…}` object comes through unchanged |
| Praterich.CleanDoubleOpener | praterich_ai.py:80-81 | only one exact "```json" opener is removed: a second one survives at the start |
| Praterich.CleanBareFence | praterich_ai.py:80-83 | a bare "```" opener, not followed by "json", is left at the start of the result |
| Praterich.StripKeepsPrefix | praterich_ai.py:81-83 | stripping text that starts with a prefix bounded by non-space characters keeps the prefix |
| Praterich.NoneEnvelope | praterich_ai.py:88 | the error envelope decodes to command "NONE", an empty query and the given message |
| Praterich.EnvelopeCommandIsMember | praterich_ai.py:88 | the envelope's command decodes to the vocabulary member NONE |
| Praterich.ResponseLine | praterich_ai.py:69-88 | the printed line is the cleaned reply. For any exception, including `.strip()` on a `None` text, it is a NONE envelope whose message is "I'm sorry, an error occurred: " followed by the exception text |
| Praterich.RunScript | praterich_ai.py:104-109 | with an argument, the output is the response line for it and a newline; with none, it is the NONE envelope with message "No query provided." |
| Praterich.ResponseText | praterich_ai.py:90-102 | never raises. The result is the stripped model text, or the apology beginning "I'm sorry, an error occurred while processing your text: " with the exception text; either way it is trimmed or starts with the apology |
| SearchEngine.EngineUrl | ringzauber.py:66-73 | after lowering, the names duckduckgo, yahoo and ecosia select their own prefix; every other name selects Google |
| SearchEngine.LoadDefaultSearchEngine | ringzauber.py:59-80 | only a readable configuration naming one of the three alternatives leaves Google. A missing file shows the setup notice. An unreadable file, or a non-string engine value, shows the configuration-error notice |
| SearchEngine.WizardNamesSelectTheirEngine | ringzauber_intro.py:154-156 | the names the setup wizard offers (Ecosia, DuckDuckGo, Yahoo) each select their own engine |
| SearchEngine.KelvinSignSelectsDuckDuckGo | ringzauber.py:66-68 | a name spelled with the Kelvin sign for K, which Python lowers to "duckduckgo", selects DuckDuckGo |
| SearchEngine.EngineUrlsAddressLike | ringzauber.py:61-73 | every possible search prefix starts with `https://`, contains a dot and has no space |
| Browser.AddNewTab | ringzauber.py:211-219 | exactly one tab is appended, at the given address or the home page, and becomes current; existing tabs are untouched |
| Browser.Start | ringzauber.py:24-80 | a new window has one home tab, no closed tabs, a hidden panel, fixed tabs along the top, and searches with the configured prefix; its log holds exactly the configuration notice, if loading the search engine produced one |
| Browser.AddHomeTabs | ringzauber.py:307-309 | n home tabs are appended (none when n ≤ 0); the last one becomes current; nothing else changes |
| Browser.RemoveAt | ringzauber.py:261 | exactly one entry goes; the others keep their relative order; the multiset loses just that entry |
| Browser.CloseTab | ringzauber.py:251-262 | with fewer than 2 tabs only the window closes. Otherwise exactly the given tab is removed and its address pushed on the closed stack, and the current index stays valid. No address is lost |
| Browser.ReopenLastClosedTab | ringzauber.py:162-168 | on an empty stack only the "no recently closed tabs" message appears. Otherwise the latest address is popped and opened as the new current tab |
| Browser.CloseThenReopen | ringzauber.py:162-168 | closing a tab then reopening restores its address as the current tab and restores the stack |
| Browser.ReopenIsLifo | ringzauber.py:162-168 | after two closes, reopening brings back the second closed tab first, then the first |
| Browser.AddThenClose | ringzauber.py:251-262 | closing a freshly opened tab restores the tab list and remembers the new tab's address |
| Browser.NextTab | ringzauber.py:146 | Ctrl+Tab moves to the next tab, wrapping from the last to the first |
| Browser.PreviousTab | ringzauber.py:149 | Ctrl+Shift+Tab moves to the previous tab, wrapping from the first to the last |
| Browser.NextPreviousInverse | ringzauber.py:146-149 | Ctrl+Tab and Ctrl+Shift+Tab undo each other |
| Browser.NextTabTimes | ringzauber.py:146 | pressing Ctrl+Tab any number of times changes only the current index, which stays valid |
| Browser.NextTabCycles | ringzauber.py:146 | k presses of Ctrl+Tab advance the index by k modulo the tab count |
| Browser.FullCycle | ringzauber.py:146 | as many presses as there are tabs return to the starting tab |
| Browser.GoToTab | ringzauber.py:152-154 | Ctrl+i selects tab i exactly when it exists; otherwise nothing changes |
| Browser.CloseCurrentTab | ringzauber.py:140 | Ctrl+W closes the current tab, with the behaviour of `close_current_tab` |
| Browser.TabBarDoubleClicked | ringzauber.py:264-266 | a double click on the empty tab bar opens a home tab; one on a tab does nothing |
| Browser.NormalizeUrl | ringzauber.py:236-249 | empty text gives nothing. Text with no dot or with a space becomes the search prefix followed by the text. Other text without `http://` or `https://` gets `https://` prepended, and text with one of them is kept as it is; so every address result has a scheme, and every result ends with the typed text |
| Browser.NormalizeUrlFixedPoint | ringzauber.py:241-246 | for text without a space, entering the address the bar produced gives the same address again |
| Browser.NormalizeUrlSpaceSearchedAgain | ringzauber.py:241-242 | for text with a space the produced search URL is not a fixed point: it is searched for again |
| Browser.NavigateToUrl | ringzauber.py:236-249 | empty text changes nothing. Otherwise only the current tab goes to the normalised address, which the URL bar then shows |
| Browser.NavigateHome | ringzauber.py:268-269 | only the current tab goes to the home page |
| Browser.ToggleSidebar | ringzauber.py:208-209 | the panel's visibility flips and nothing else changes |
| Browser.SetTabLayout | ringzauber.py:378-385 | the tab strip takes the layout, tabs become movable, and nothing else changes |
| Dispatch.NewTabs | ringzauber.py:306-309 | raises exactly for a non-empty count that is not an integer, and then changes nothing; otherwise only tabs and current change |
| Dispatch.SwitchTab | ringzauber.py:358-366 | raises TypeError exactly without a query; otherwise only the current index and the log change, and the index stays valid |
| DispatchProperties.TabBranchFrame | ringzauber.py:300-311 | only CLOSE_TAB touches the closed stack, SWITCH_TAB never changes the tabs, the home page and settings are never touched, and the only exceptions are NEW_TAB's non-numeric count and SWITCH_TAB without a query |
| Dispatch.TabBranch | ringzauber.py:300-311 | a tab branch keeps the session valid and keeps every earlier log entry |
| Dispatch.ChromeBranch | ringzauber.py:331-385 | TOGGLE_SIDEBAR and the TAB_FORMAT branches change only the panel visibility, the tab layout and whether tabs are movable |
| Dispatch.Reaction | ringzauber.py:312-389 | every other branch produces at most one event, and an unhandled command none |
| Dispatch.PlaceholderReaction | ringzauber.py:333-368 | a placeholder branch only types its fixed sentence |
| Dispatch.React | ringzauber.py:312-389 | every other branch adds at most one event to the log and changes nothing else; an unhandled command adds none |
| Dispatch.Branch | ringzauber.py:300-389 | every branch keeps the session valid and keeps every earlier log entry; a member without a branch does nothing |
| Dispatch.PerformAction | ringzauber.py:292-389 | the message is shown first and then the thinking indicator is hidden; the session stays valid; with no branch selected nothing else changes |
| DispatchProperties.RunsBranch | ringzauber.py:292-299 | a command that selects a branch runs exactly that branch on the session with the message shown |
| DispatchProperties.BranchFrame | ringzauber.py:300-389 | exceptions escape exactly for a non-numeric NEW_TAB count or a SWITCH_TAB without a query; only NAVIGATE, SEARCH, NEW_TAB and CLOSE_TAB change the tabs; SWITCH_TAB is the only other branch that changes the current index; only CLOSE_TAB changes the closed stack; home page and search prefix never change |
| DispatchProperties.ActionFrame | ringzauber.py:292-389 | the same frame for a whole reply, in terms of the command string: which commands can raise and which can change the tabs, the current index or the closed stack |
| DispatchProperties.TabBranchRuns | ringzauber.py:300-311 | the five tab commands run the tab branch |
| DispatchProperties.ReactionRuns | ringzauber.py:312-389 | every branch that is neither a tab nor a chrome branch only appends its event to the log |
| DispatchProperties.HistoryEvents | ringzauber.py:312-317 | RELOAD, GO_BACK and GO_FORWARD call reload, back and forward on the active tab |
| DispatchProperties.ScriptEvents | ringzauber.py:320-343 | EDIT_PAGE runs the query as script in the page, TRANSLATE_PAGE runs the translation script for the query, DEVELOPER_TOOLS triggers the inspect action |
| DispatchProperties.ViewEvents | ringzauber.py:344-377 | ZOOM_IN and ZOOM_OUT zoom the active tab, FIND_ON_PAGE finds the query, CRAWL_SITE asks for the page's HTML |
| DispatchProperties.DialogEvents | ringzauber.py:326-355 | PRINT_TO_PDF prints to the chosen path and UPLOAD_FILE types it; each does nothing when its dialog is cancelled |
| DispatchProperties.StyleEvents | ringzauber.py:318-325 | SET_COLOR sets the window's and SET_FONT the application's style sheet from the query; EDIT_CODE shows its status-bar message |
| DispatchProperties.PanelEvents | ringzauber.py:369-389 | NEW_CHAT clears the chat, OPEN_NOTES shows the notes, PROMPT_DISPLAY types the query |
| Dispatch.CrawlPrompt | ringzauber.py:373 | the summary request is the introduction, at most the first 5000 characters of the HTML, and "..." |
| Dispatch.OnCrawledHtml | ringzauber.py:372-375 | the crawl callback types exactly the plain-text answer to the summary request |
| DispatchProperties.HandlerCoverage | ringzauber.py:300-389 | every vocabulary member selects its own branch, except exactly NONE, PROMPT, NEW_WINDOW and PROCESS_TEXT |
| Dispatch.BranchOf | ringzauber.py:300-389 | the `if`/`elif` chain on the command string; a missing command selects nothing. What it selects is stated by `DispatchProperties.HandlerCoverage`, the `Selects…` lemmas and `DispatchProperties.BranchOfNamesMember` |
| DispatchProperties.NoBranchForMissing | ringzauber.py:292-389 | a reply without a command selects no branch |
| DispatchProperties.NoBranchForNone | ringzauber.py:300-389 | the name NONE falls through the whole chain and selects no branch |
| DispatchProperties.NoBranchForPrompt | ringzauber.py:300-389 | the name PROMPT falls through the whole chain and selects no branch |
| DispatchProperties.NoBranchForNewWindow | ringzauber.py:300-389 | the name NEW_WINDOW falls through the whole chain and selects no branch |
| DispatchProperties.NoBranchForProcessText | ringzauber.py:300-389 | the name PROCESS_TEXT falls through the whole chain and selects no branch |
| DispatchProperties.SelectsNavigate | ringzauber.py:300 | the NAVIGATE branch is selected by the command "NAVIGATE" and by no other command |
| DispatchProperties.SelectsSearch | ringzauber.py:302 | the SEARCH branch is selected by the command "SEARCH" and by no other command |
| DispatchProperties.SelectsNewTab | ringzauber.py:306 | the NEW_TAB branch is selected by the command "NEW_TAB" and by no other command |
| DispatchProperties.SelectsCloseTab | ringzauber.py:310 | the CLOSE_TAB branch is selected by the command "CLOSE_TAB" and by no other command |
| DispatchProperties.SelectsReload | ringzauber.py:312 | the RELOAD branch is selected by the command "RELOAD" and by no other command |
| DispatchProperties.SelectsGoBack | ringzauber.py:314 | the GO_BACK branch is selected by the command "GO_BACK" and by no other command |
| DispatchProperties.SelectsGoForward | ringzauber.py:316 | the GO_FORWARD branch is selected by the command "GO_FORWARD" and by no other command |
| DispatchProperties.SelectsSetColor | ringzauber.py:318 | the SET_COLOR branch is selected by the command "SET_COLOR" and by no other command |
| DispatchProperties.SelectsEditPage | ringzauber.py:320 | the EDIT_PAGE branch is selected by the command "EDIT_PAGE" and by no other command |
| DispatchProperties.SelectsEditCode | ringzauber.py:322 | the EDIT_CODE branch is selected by the command "EDIT_CODE" and by no other command |
| DispatchProperties.SelectsSetFont | ringzauber.py:324 | the SET_FONT branch is selected by the command "SET_FONT" and by no other command |
| DispatchProperties.SelectsUploadFile | ringzauber.py:326 | the UPLOAD_FILE branch is selected by the command "UPLOAD_FILE" and by no other command |
| DispatchProperties.SelectsToggleSidebar | ringzauber.py:331 | the TOGGLE_SIDEBAR branch is selected by the command "TOGGLE_SIDEBAR" and by no other command |
| DispatchProperties.SelectsManageExtensions | ringzauber.py:333 | the MANAGE_EXTENSIONS branch is selected by the command "MANAGE_EXTENSIONS" and by no other command |
| DispatchProperties.SelectsSyncData | ringzauber.py:335 | the SYNC_DATA branch is selected by the command "SYNC_DATA" and by no other command |
| DispatchProperties.SelectsTranslatePage | ringzauber.py:337 | the TRANSLATE_PAGE branch is selected by the command "TRANSLATE_PAGE" and by no other command |
| DispatchProperties.SelectsChangeSettings | ringzauber.py:340 | the CHANGE_SETTINGS branch is selected by the command "CHANGE_SETTINGS" and by no other command |
| DispatchProperties.SelectsDeveloperTools | ringzauber.py:342 | the DEVELOPER_TOOLS branch is selected by the command "DEVELOPER_TOOLS" and by no other command |
| DispatchProperties.SelectsZoomIn | ringzauber.py:344 | the ZOOM_IN branch is selected by the command "ZOOM_IN" and by no other command |
| DispatchProperties.SelectsZoomOut | ringzauber.py:347 | the ZOOM_OUT branch is selected by the command "ZOOM_OUT" and by no other command |
| DispatchProperties.SelectsFindOnPage | ringzauber.py:350 | the FIND_ON_PAGE branch is selected by the command "FIND_ON_PAGE" and by no other command |
| DispatchProperties.SelectsPrintToPdf | ringzauber.py:352 | the PRINT_TO_PDF branch is selected by the command "PRINT_TO_PDF" and by no other command |
| DispatchProperties.SelectsBookmarkPage | ringzauber.py:356 | the BOOKMARK_PAGE branch is selected by the command "BOOKMARK_PAGE" and by no other command |
| DispatchProperties.SelectsSwitchTab | ringzauber.py:358 | the SWITCH_TAB branch is selected by the command "SWITCH_TAB" and by no other command |
| DispatchProperties.SelectsResizeWindow | ringzauber.py:367 | the RESIZE_WINDOW branch is selected by the command "RESIZE_WINDOW" and by no other command |
| DispatchProperties.SelectsNewChat | ringzauber.py:369 | the NEW_CHAT branch is selected by the command "NEW_CHAT" and by no other command |
| DispatchProperties.SelectsCrawlSite | ringzauber.py:371 | the CRAWL_SITE branch is selected by the command "CRAWL_SITE" and by no other command |
| DispatchProperties.SelectsTabFormatVertical | ringzauber.py:378 | the TAB_FORMAT_VERTICAL branch is selected by the command "TAB_FORMAT_VERTICAL" and by no other command |
| DispatchProperties.SelectsTabFormatHorizontalMultirowe | ringzauber.py:382 | the TAB_FORMAT_HORIZONTAL_MULTIROWE branch is selected by the command "TAB_FORMAT_HORIZONTAL_MULTIROWE" and by no other command |
| DispatchProperties.SelectsOpenNotes | ringzauber.py:386 | the OPEN_NOTES branch is selected by the command "OPEN_NOTES" and by no other command |
| DispatchProperties.SelectsPromptDisplay | ringzauber.py:388 | the PROMPT_DISPLAY branch is selected by the command "PROMPT_DISPLAY" and by no other command |
| DispatchProperties.BranchOfNamesMember | ringzauber.py:300-389 | the branch a command selects is the vocabulary member whose wire name the command is |
| DispatchProperties.BranchIsHandled | ringzauber.py:300-389 | no branch is selected for NONE, PROMPT, NEW_WINDOW or PROCESS_TEXT |
| DispatchProperties.BranchNamesInVocabulary | ringzauber.py:300-389 | every command name the dispatcher tests for is a vocabulary member |
| DispatchProperties.UnhandledChangesNothing | ringzauber.py:292-298 | a missing, unknown or unhandled command changes nothing beyond showing the message |
| DispatchProperties.NavigateCommand | ringzauber.py:300-301 | NAVIGATE appends one tab at the query and makes it current |
| DispatchProperties.SearchCommand | ringzauber.py:302-305 | SEARCH appends one tab at the search prefix followed by the query, not URL-encoded, and makes it current |
| DispatchProperties.NewTabCommand | ringzauber.py:306-309 | a NEW_TAB command runs the NEW_TAB branch after the message is shown |
| DispatchProperties.NewTabsCount | ringzauber.py:306-309 | the NEW_TAB branch opens 1 home tab for an empty or missing count and max(n, 0) for n, all after the existing tabs, and the last one becomes current; a non-integer count raises ValueError and changes nothing |
| DispatchProperties.CloseTabCommand | ringzauber.py:310-311 | CLOSE_TAB on the last tab closes the window; otherwise it removes exactly the current tab and pushes its address |
| DispatchProperties.SwitchTabCommand | ringzauber.py:358-366 | a SWITCH_TAB command runs the SWITCH_TAB branch after the message is shown |
| DispatchProperties.SwitchTabRange | ringzauber.py:358-366 | SWITCH_TAB with n in 1..count selects tab n. Another integer gives the out-of-range message and a non-integer the invalid-number message, both leaving the index unchanged. No query raises TypeError |
| DispatchProperties.PlaceholderCommand | ringzauber.py:333-368 | the placeholder commands only type their fixed sentence after the message |
| DispatchProperties.ToggleSidebarTwice | ringzauber.py:331-332 | TOGGLE_SIDEBAR flips the panel, and applying it twice restores every field but the log |
| DispatchProperties.TabFormatIdempotent | ringzauber.py:378-385 | a TAB_FORMAT command sets its layout, and repeating it changes nothing but the log |
| DispatchProperties.CrawlSiteCommand | ringzauber.py:371-377 | CRAWL_SITE only asks the active page for its HTML |
| DispatchProperties.PromptDisplayCommand | ringzauber.py:388-389 | PROMPT_DISPLAY types the query after the message |
| DispatchProperties.PromptDisplayBranch | ringzauber.py:388-389 | the PROMPT_DISPLAY branch types the query and changes nothing else |

## Left out

- Qt widgets and their wiring are not modelled. This covers the toolbars, status bar, downloads list and download status, the notes dialog, font loading, the terminal subprocess, and window titles (`update_title`). They are GUI and I/O. A branch that only hands something to Qt or to the page is a log event.
- Browser.CloseTab: after `removeTab`, Qt picks the new current index, and the code does not show how. The model takes that choice as an input `pick`, clamped into range. It promises only that the index is valid.
- The `update_url`/`urlChanged` updates are asynchronous and not modelled. A tab's address is the address it was last sent to.
- `QUrl` parsing and normalisation are not modelled. A tab's address is the text passed to `QUrl`. A `None` query given to a Qt string parameter is modelled as "" (`Dispatch.QtString`). An f-string of `None` is modelled as "None" (`PyStr.Format`).
- ZOOM_IN and ZOOM_OUT change a floating-point zoom factor by 0.1. They are modelled only as events.
- The language-model calls, the worker thread pool and the "Thinking..." indicator's timing are left out. They are network and concurrency. The model's answer is a parameter, either a `Reply` or a function from prompt to `Reply`.
- Reading `ringzauber_config.json` from disk is left out. The file's parsed state is an input (`ConfigFile`), and the warning printed on a read error is not modelled.
- UPLOAD_FILE and PRINT_TO_PDF open file dialogs. The user's choice is an input, where "" means cancelled. `upload_file`, which is reached from the toolbar rather than the dispatcher, is not modelled.
- `new_window`, the downloads dialog, `on_praterich_command` and `handle_ai_error_on_command` are left out. They create windows or start worker threads.
- An exception that escapes a slot is modelled as the `Raised` outcome with the session at the raise point. What PyQt does next, usually aborting the process, is not modelled.
- The intent's three values are modelled as optional strings. A JSON number or list given as `query` (which `int()` or an f-string would also accept) is not modelled.
- PyStr.ParseInt: the digits are ASCII 0–9 only. Python's `int()` also accepts other Unicode decimal digits. The 4300-digit cap is CPython's default; a cap changed through `PYTHONINTMAXSTRDIGITS` or `sys.set_int_max_str_digits`, and Python versions without a cap, are not modelled.
- A Python string may hold a lone surrogate (U+D800–U+DFFF), for example in a reply from the language model, and `json.dumps` writes it as a `\udXXX` escape. Dafny's `char` is a Unicode scalar value, so such strings are not modelled.
- PyStr.Lower: maps the ASCII capitals and the Kelvin sign only. Python's `str.lower()` also maps other non-ASCII letters, sometimes to several characters, but never to text made only of ASCII, so whether a lowered name equals one of the ASCII engine names comes out as in Python.
- `print(cleaned_text)` can fail on a console that cannot encode some characters. This is not modelled: the cleaned text is taken as printed.
- `voice_input.py` is not part of this model: it does microphone capture and calls a speech-recognition service. Of `ringzauber_intro.py`, a setup wizard, only the three engine names it offers are used.
- NEW_TAB follows the code. The count is `int(query)`, with no upper cap and no clamping. A negative count opens no tabs, and a non-numeric count raises. SEARCH also follows the code: the query is appended to the prefix without URL encoding.
