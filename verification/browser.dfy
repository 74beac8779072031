/** The browser window's session state (ringzauber.py, `PraterichBrowser`)
    with the Qt widgets abstracted away: the tab strip is the sequence of
    the tabs' addresses, the assistant panel and the other widgets are
    reduced to the fields and the log of events they display. */
module Browser {
  import opened Wrappers
  import opened PyStr
  import SearchEngine

  /** The script the `TRANSLATE_PAGE` command runs in the page: a Google
      Translate window for the page's text, into language `target`. */
  function TranslateScript(target: string): string {
    "window.open('https://translate.google.com/?sl=auto&tl=" + target
      + "&text=' + encodeURIComponent(document.body.innerText), '_blank');"
  }

  /** The main window's style sheet for background colour `color`. */
  function WindowCss(color: string): string {
    "QMainWindow { background-color: " + color + "; }"
  }

  /** The application style sheet wrapping the CSS declarations `rules`. */
  function ApplicationCss(rules: string): string {
    "QApplication { " + rules + " }"
  }

  /** Tab-strip orientation: tabs along the top (North) or down the side (West). */
  datatype Layout = Horizontal | Vertical

  /** A primitive call on the active tab's page, which is outside the model. */
  datatype PageCall =
    | Reload | GoBack | GoForward
    | RunJavaScript(source: string)
    | Translate(target: string)          // runs `TranslateScript(target)`
    | FindText(needle: string)
    | InspectElement | ZoomIn | ZoomOut
    | PrintToPdf(path: string)
    | FetchHtml

  /** The fixed sentences the window shows; `Words` gives each one's text. */
  datatype Sentence =
    | NoClosedTabs
    | NoExtensions | NoSync | NoSettings | NoBookmarks | NoResize
    | TabOutOfRange | TabNumberInvalid
    | EditCodeDisabled
    | FileSelected(path: string)

  function Words(s: Sentence): string {
    match s
    case NoClosedTabs => "There are no recently closed tabs to reopen."
    case NoExtensions => "I am afraid I cannot manage extensions at this moment, as this feature is still under development."
    case NoSync => "Data synchronization is not yet implemented. Please check for a future update."
    case NoSettings => "Current settings cannot be changed via command. A settings menu will be implemented in a future update."
    case NoBookmarks => "The bookmarking feature is not yet available, my apologies. I will remember this for a future update."
    case NoResize => "I can't resize the window automatically just yet. You may do so by dragging the edges."
    case TabOutOfRange => "I'm afraid that tab number is out of range."
    case TabNumberInvalid => "Please provide a valid tab number or name."
    case EditCodeDisabled => "Editing code is not enabled in this version."
    case FileSelected(path) => "File selected: " + path + ". Processing with Praterich..."
  }

  /** What the window shows or asks of its collaborators, in order. */
  datatype Event =
    | Typed(text: Option<string>)        // typed into the assistant panel
    | Said(sentence: Sentence)           // a fixed sentence typed into the panel
    | ThinkingHidden                     // the "Thinking..." indicator removed
    | StatusShown(status: Sentence)      // a status-bar message
    | OnActiveTab(call: PageCall)
    | BackgroundSet(color: string)       // main window style sheet `WindowCss(color)`
    | FontSet(rules: string)             // application style sheet `ApplicationCss(rules)`
    | ChatCleared
    | NotesShown
    | MessageBox(notice: SearchEngine.Notice)

  /** One browser window. `tabs` holds each tab's address in display order,
      `closedTabs` the addresses of closed tabs, most recent last; `home`
      and `searchUrl` are fixed when the window is built. */
  datatype Session = Session(
    tabs: seq<string>,
    current: nat,
    closedTabs: seq<string>,
    sidebarVisible: bool,
    layout: Layout,
    tabsMovable: bool,
    windowOpen: bool,
    urlBar: string,
    log: seq<Event>,
    home: string,
    searchUrl: string)

  /** There is a tab and the current index designates one. */
  predicate Valid(s: Session) {
    0 < |s.tabs| && s.current < |s.tabs|
  }

  /** `add_new_tab(qurl)`: a tab at `url` (the home page when none is given)
      is appended at the end and becomes current; nothing else changes. */
  function AddNewTab(s: Session, url: Option<string>): (r: Session)
    ensures |r.tabs| == |s.tabs| + 1 && r.tabs[..|s.tabs|] == s.tabs
    ensures r.tabs[|s.tabs|] == url.GetOr(s.home)
    ensures r.current == |s.tabs| && Valid(r)
    ensures r == s.(tabs := r.tabs, current := r.current)
  {
    var t := s.tabs + [url.GetOr(s.home)];
    assert t[..|s.tabs|] == s.tabs;
    s.(tabs := t, current := |s.tabs|)
  }

  /** The window as built: one home tab, sidebar hidden, tabs along the top,
      and the search engine read from `config`, with any notice shown. */
  function Start(home: string, config: SearchEngine.ConfigFile): (s: Session)
    ensures Valid(s) && s.tabs == [home] && s.current == 0
    ensures s.closedTabs == [] && !s.sidebarVisible && s.layout == Horizontal && s.windowOpen
    ensures s.searchUrl == SearchEngine.LoadDefaultSearchEngine(config).url
    ensures !s.tabsMovable
    ensures var notice := SearchEngine.LoadDefaultSearchEngine(config).notice;
      s.log == (if notice.Some? then [MessageBox(notice.value)] else [])
  {
    var setup := SearchEngine.LoadDefaultSearchEngine(config);
    var log := if setup.notice.Some? then [MessageBox(setup.notice.value)] else [];
    AddNewTab(Session([], 0, [], false, Horizontal, false, true, "", log, home, setup.url), None)
  }

  /** The `NEW_TAB` loop: `n` home tabs appended one after another; none
      when `n` is zero or negative. The last one opened is current. */
  function AddHomeTabs(s: Session, n: int): (r: Session)
    ensures |r.tabs| == |s.tabs| + (if n > 0 then n else 0)
    ensures r.tabs[..|s.tabs|] == s.tabs
    ensures forall i :: |s.tabs| <= i < |r.tabs| ==> r.tabs[i] == s.home
    ensures n > 0 ==> r.current == |r.tabs| - 1
    ensures n <= 0 ==> r == s
    ensures r == s.(tabs := r.tabs, current := r.current)
    decreases n
  {
    if n <= 0 then s
    else
      var r := AddHomeTabs(AddNewTab(s, None), n - 1);
      assert r.tabs[..|s.tabs|] == r.tabs[..|s.tabs| + 1][..|s.tabs|];
      r
  }

  /** `tabs` with the entry at `index` taken out. */
  function RemoveAt(tabs: seq<string>, index: nat): (r: seq<string>)
    requires index < |tabs|
    ensures |r| == |tabs| - 1
    ensures forall i :: 0 <= i < index ==> r[i] == tabs[i]
    ensures forall i :: index <= i < |r| ==> r[i] == tabs[i + 1]
    ensures multiset(r) + multiset{tabs[index]} == multiset(tabs)
  {
    assert tabs == tabs[..index] + [tabs[index]] + tabs[index + 1..];
    tabs[..index] + tabs[index + 1..]
  }

  /** `close_current_tab(index)`. With fewer than two tabs the window
      closes and the tabs stay as they are. Otherwise exactly the tab at
      `index` goes, the others keep their order, and its address is pushed
      on the closed-tab stack. Which tab the tab widget then makes current
      is Qt's choice, `pick`, kept within range. */
  function CloseTab(s: Session, index: nat, pick: nat): (r: Session)
    requires index < |s.tabs|
    ensures |s.tabs| < 2 ==> r == s.(windowOpen := false)
    ensures |s.tabs| >= 2 ==>
      && r.tabs == RemoveAt(s.tabs, index)
      && r.closedTabs == s.closedTabs + [s.tabs[index]]
      && r.windowOpen == s.windowOpen
      && Valid(r)
    ensures multiset(r.tabs) + multiset(r.closedTabs) == multiset(s.tabs) + multiset(s.closedTabs)
    ensures r == s.(tabs := r.tabs, current := r.current, closedTabs := r.closedTabs, windowOpen := r.windowOpen)
  {
    if |s.tabs| < 2 then s.(windowOpen := false)
    else
      var rest := RemoveAt(s.tabs, index);
      s.(tabs := rest,
         closedTabs := s.closedTabs + [s.tabs[index]],
         current := if pick < |rest| then pick else |rest| - 1)
  }

  /** `reopen_last_closed_tab`: with an empty stack only the panel says so;
      otherwise the most recently closed address is popped and opened as a
      new current tab. No address is lost or invented. */
  function ReopenLastClosedTab(s: Session): (r: Session)
    ensures s.closedTabs == [] ==>
      r == s.(log := s.log + [Said(NoClosedTabs)])
    ensures s.closedTabs != [] ==>
      && r.tabs == s.tabs + [s.closedTabs[|s.closedTabs| - 1]]
      && r.closedTabs == s.closedTabs[..|s.closedTabs| - 1]
      && r.current == |s.tabs| && Valid(r)
      && r == s.(tabs := r.tabs, current := r.current, closedTabs := r.closedTabs)
    ensures multiset(r.tabs) + multiset(r.closedTabs) == multiset(s.tabs) + multiset(s.closedTabs)
  {
    if |s.closedTabs| > 0 then
      var last := s.closedTabs[|s.closedTabs| - 1];
      var rest := s.closedTabs[..|s.closedTabs| - 1];
      assert s.closedTabs == rest + [last];
      var r := AddNewTab(s.(closedTabs := rest), Some(last));
      assert r.tabs == s.tabs + [last];
      r
    else s.(log := s.log + [Said(NoClosedTabs)])
  }

  /** The Ctrl+Tab shortcut: the next tab, wrapping from the last to the first. */
  function NextTab(s: Session): (r: Session)
    requires Valid(s)
    ensures Valid(r) && r == s.(current := r.current)
    ensures r.current == if s.current + 1 < |s.tabs| then s.current + 1 else 0
  {
    s.(current := (s.current + 1) % |s.tabs|)
  }

  /** The Ctrl+Shift+Tab shortcut: the previous tab, wrapping from the first to the last. */
  function PreviousTab(s: Session): (r: Session)
    requires Valid(s)
    ensures Valid(r) && r == s.(current := r.current)
    ensures r.current == if s.current > 0 then s.current - 1 else |s.tabs| - 1
  {
    s.(current := (s.current - 1 + |s.tabs|) % |s.tabs|)
  }

  /** The Ctrl+1 … Ctrl+9 shortcuts: tab `i` (1-based) becomes current when
      it exists; Qt ignores an index past the last tab. */
  function GoToTab(s: Session, i: nat): (r: Session)
    requires Valid(s) && 1 <= i <= 9
    ensures Valid(r) && r == s.(current := r.current)
    ensures i <= |s.tabs| <==> r.current == i - 1
    ensures i > |s.tabs| ==> r == s
  {
    if i - 1 < |s.tabs| then s.(current := i - 1) else s
  }

  /** The Ctrl+W shortcut closes the current tab. */
  function CloseCurrentTab(s: Session, pick: nat): (r: Session)
    requires Valid(s)
    ensures |s.tabs| >= 2 ==>
      r.tabs == RemoveAt(s.tabs, s.current) && r.closedTabs == s.closedTabs + [s.tabs[s.current]]
    ensures |s.tabs| < 2 ==> r == s.(windowOpen := false)
  {
    CloseTab(s, s.current, pick)
  }

  /** `tab_open_doubleclick(index)`: a double click on the empty part of
      the tab bar (index -1) opens a home tab; one on a tab does nothing. */
  function TabBarDoubleClicked(s: Session, index: int): (r: Session)
    ensures index == -1 ==> r.tabs == s.tabs + [s.home] && r.current == |s.tabs|
    ensures index != -1 ==> r == s
  {
    if index == -1 then AddNewTab(s, None) else s
  }

  /** Next and previous undo each other. */
  lemma NextPreviousInverse(s: Session)
    requires Valid(s)
    ensures PreviousTab(NextTab(s)) == s
    ensures NextTab(PreviousTab(s)) == s
  {
  }

  /** `k` presses of Ctrl+Tab. */
  function NextTabTimes(s: Session, k: nat): (r: Session)
    requires Valid(s)
    ensures Valid(r) && r == s.(current := r.current)
    decreases k
  {
    if k == 0 then s else NextTabTimes(NextTab(s), k - 1)
  }

  /** `k` presses of Ctrl+Tab advance the current index by `k` modulo the
      number of tabs; as many presses as there are tabs come back round. */
  lemma {:induction false} NextTabCycles(s: Session, k: nat)
    requires Valid(s)
    ensures NextTabTimes(s, k).current == (s.current + k) % |s.tabs|
    decreases k
  {
    if k > 0 {
      var n := |s.tabs|;
      NextTabCycles(NextTab(s), k - 1);
      var c1 := NextTab(s).current;
      assert c1 == (s.current + 1) % n;
      ModAddOne(s.current, k - 1, n);
    }
  }

  lemma {:induction false} MulAtLeast(d: int, n: int)
    requires d >= 1 && n > 0
    ensures d * n >= n
    decreases d
  {
    if d > 1 {
      MulAtLeast(d - 1, n);
      assert d * n == (d - 1) * n + n;
    }
  }

  /** `x % n` is the remainder of any division of `x` by `n`. */
  lemma ModUnique(x: int, n: int, q: int, r: int)
    requires n > 0 && 0 <= r < n && x == q * n + r
    ensures x % n == r
  {
    var q', r' := x / n, x % n;
    assert x == q' * n + r';
    var d := q - q';
    assert d * n == q * n - q' * n;
    assert d * n == r' - r;
    if d >= 1 {
      MulAtLeast(d, n);
    } else if d <= -1 {
      MulAtLeast(-d, n);
    }
  }

  lemma ModAddOne(c: nat, k: nat, n: nat)
    requires 0 < n && c < n
    ensures ((c + 1) % n + k) % n == (c + k + 1) % n
  {
    if c + 1 < n {
      ModUnique(c + 1, n, 0, c + 1);
    } else {
      ModUnique(c + 1, n, 1, 0);
      ModUnique(k + n, n, k / n + 1, k % n);
      ModUnique(k, n, k / n, k % n);
    }
  }

  lemma FullCycle(s: Session)
    requires Valid(s)
    ensures NextTabTimes(s, |s.tabs|) == s
  {
    NextTabCycles(s, |s.tabs|);
    ModUnique(s.current + |s.tabs|, |s.tabs|, 1, s.current);
  }

  /** The address the URL bar turns `text` into: nothing for empty text;
      a search for text with no dot or with a space; `https://` added to
      text without a scheme; other text as it is. */
  function NormalizeUrl(text: string, searchUrl: string): (r: Option<string>)
    ensures r.None? <==> |text| == 0
    ensures r.Some? ==> EndsWith(r.value, text)
    ensures r.Some? && ('.' !in text || ' ' in text) ==> r.value == searchUrl + text
    ensures r.Some? && '.' in text && ' ' !in text ==>
      StartsWith(r.value, "http://") || StartsWith(r.value, "https://")
    ensures var hasScheme := StartsWith(text, "http://") || StartsWith(text, "https://");
      r.Some? && '.' in text && ' ' !in text && !hasScheme ==> r.value == "https://" + text
    ensures var hasScheme := StartsWith(text, "http://") || StartsWith(text, "https://");
      r.Some? && '.' in text && ' ' !in text && hasScheme ==> r.value == text
  {
    if |text| == 0 then None
    else if '.' !in text || ' ' in text then Some(searchUrl + text)
    else if !(StartsWith(text, "http://") || StartsWith(text, "https://")) then Some("https://" + text)
    else Some(text)
  }

  /** Entering an address the URL bar itself produced, when the typed text
      had no space and the search prefix is an address, changes nothing: the
      normalised address is a fixed point. (Text with a space is not: its
      search URL contains the space and would be searched for again.) */
  lemma {:induction false} NormalizeUrlFixedPoint(text: string, searchUrl: string)
    requires |text| > 0 && ' ' !in text
    requires SearchEngine.AddressLike(searchUrl)
    ensures NormalizeUrl(NormalizeUrl(text, searchUrl).value, searchUrl) == NormalizeUrl(text, searchUrl)
  {
    var u := NormalizeUrl(text, searchUrl).value;
    if '.' !in text {
      assert u == searchUrl + text;
      AddressAppend(searchUrl, text);
    } else if !(StartsWith(text, "http://") || StartsWith(text, "https://")) {
      assert u == "https://" + text;
      AddressAppend("https://", text);
    }
  }

  /** Text starting with `https://`, followed by more text, with a dot in
      one of the two and a space in neither, is an address the URL bar
      keeps as it is. */
  lemma AddressAppend(a: string, b: string)
    requires StartsWith(a, "https://") && ' ' !in a && ' ' !in b && ('.' in a || '.' in b)
    ensures StartsWith(a + b, "https://") && '.' in a + b && ' ' !in a + b
  {
    if '.' in a {
      var k :| 0 <= k < |a| && a[k] == '.';
      assert (a + b)[k] == '.';
    } else {
      var k :| 0 <= k < |b| && b[k] == '.';
      assert (a + b)[|a| + k] == '.';
    }
    assert (a + b)[..8] == a[..8];
    forall i | 0 <= i < |a + b|
      ensures (a + b)[i] != ' '
    {
      if i < |a| { assert (a + b)[i] == a[i]; } else { assert (a + b)[i] == b[i - |a|]; }
    }
  }

  /** A search for text containing a space is not a fixed point. */
  lemma NormalizeUrlSpaceSearchedAgain(text: string, searchUrl: string)
    requires ' ' in text
    ensures NormalizeUrl(NormalizeUrl(text, searchUrl).value, searchUrl) == Some(searchUrl + searchUrl + text)
  {
    var k :| 0 <= k < |text| && text[k] == ' ';
    var u := searchUrl + text;
    assert u[|searchUrl| + k] == ' ';
    assert searchUrl + u == searchUrl + searchUrl + text;
  }

  /** Typing into the URL bar. */
  function EditUrlBar(s: Session, text: string): (r: Session)
    ensures r.urlBar == text && r == s.(urlBar := text)
  {
    s.(urlBar := text)
  }

  /** `navigate_to_url` (Enter in the URL bar): empty text changes nothing;
      otherwise the current tab goes to the normalised address, which the
      URL bar then shows, and no other tab changes. */
  function NavigateToUrl(s: Session): (r: Session)
    requires Valid(s)
    ensures |s.urlBar| == 0 ==> r == s
    ensures |s.urlBar| > 0 ==>
      && r.urlBar == NormalizeUrl(s.urlBar, s.searchUrl).value
      && r.tabs == s.tabs[s.current := r.urlBar]
      && r == s.(tabs := r.tabs, urlBar := r.urlBar)
    ensures Valid(r)
  {
    match NormalizeUrl(s.urlBar, s.searchUrl)
    case None => s
    case Some(url) => s.(tabs := s.tabs[s.current := url], urlBar := url)
  }

  /** The Home button: the current tab goes to the home page. */
  function NavigateHome(s: Session): (r: Session)
    requires Valid(s)
    ensures Valid(r) && r.tabs == s.tabs[s.current := s.home] && r == s.(tabs := r.tabs)
  {
    s.(tabs := s.tabs[s.current := s.home])
  }

  /** Showing or hiding the assistant panel flips its visibility and
      nothing else. */
  function ToggleSidebar(s: Session): (r: Session)
    ensures r.sidebarVisible != s.sidebarVisible
    ensures r == s.(sidebarVisible := r.sidebarVisible)
  {
    s.(sidebarVisible := !s.sidebarVisible)
  }

  /** The `TAB_FORMAT_*` commands: the tab strip takes `layout` (with the
      document mode that goes with it) and tabs become movable. */
  function SetTabLayout(s: Session, layout: Layout): (r: Session)
    ensures r.layout == layout && r.tabsMovable
    ensures r == s.(layout := layout, tabsMovable := true)
  {
    s.(layout := layout, tabsMovable := true)
  }

  /** Closing a tab and reopening restores its address as the new current
      tab, and the closed-tab stack is as it was before. */
  lemma CloseThenReopen(s: Session, index: nat, pick: nat)
    requires |s.tabs| >= 2 && index < |s.tabs|
    ensures var r := ReopenLastClosedTab(CloseTab(s, index, pick));
      && r.tabs == RemoveAt(s.tabs, index) + [s.tabs[index]]
      && r.tabs[r.current] == s.tabs[index]
      && r.closedTabs == s.closedTabs
  {
    var c := CloseTab(s, index, pick);
    assert c.closedTabs[..|c.closedTabs| - 1] == s.closedTabs;
  }

  /** Reopening is last-in first-out: after two closes, the first reopen
      brings back the second tab closed and the next one the first. */
  lemma ReopenIsLifo(s: Session, i: nat, j: nat, p1: nat, p2: nat)
    requires |s.tabs| >= 3 && i < |s.tabs| && j < |s.tabs| - 1
    ensures var s1 := CloseTab(s, i, p1);
      var s2 := CloseTab(s1, j, p2);
      var r1 := ReopenLastClosedTab(s2);
      var r2 := ReopenLastClosedTab(r1);
      && r1.tabs[r1.current] == s1.tabs[j]
      && r2.tabs[r2.current] == s.tabs[i]
      && r2.closedTabs == s.closedTabs
  {
    var s1 := CloseTab(s, i, p1);
    var s2 := CloseTab(s1, j, p2);
    assert s2.closedTabs == s.closedTabs + [s.tabs[i]] + [s1.tabs[j]];
    var r1 := ReopenLastClosedTab(s2);
    assert r1.closedTabs == s.closedTabs + [s.tabs[i]];
  }

  /** Closing a freshly added tab takes the session's tabs back to what
      they were and remembers the new tab's address. */
  lemma AddThenClose(s: Session, url: Option<string>, pick: nat)
    requires Valid(s)
    ensures var r := CloseTab(AddNewTab(s, url), |s.tabs|, pick);
      r.tabs == s.tabs && r.closedTabs == s.closedTabs + [url.GetOr(s.home)]
  {
    var a := AddNewTab(s, url);
    assert RemoveAt(a.tabs, |s.tabs|) == s.tabs;
  }
}
