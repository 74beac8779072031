/** The closed command vocabulary the assistant is told it may answer with:
    35 names, in the order the system instruction advertises them. */
module Vocabulary {
  import opened Wrappers

  datatype Command =
    | NAVIGATE | SEARCH | NONE | PROMPT | NEW_TAB | CLOSE_TAB | RELOAD
    | GO_BACK | GO_FORWARD | SET_COLOR | EDIT_PAGE | NEW_WINDOW | EDIT_CODE
    | SET_FONT | UPLOAD_FILE | TOGGLE_SIDEBAR | PROCESS_TEXT | MANAGE_EXTENSIONS
    | SYNC_DATA | TRANSLATE_PAGE | CHANGE_SETTINGS | DEVELOPER_TOOLS | ZOOM_IN
    | ZOOM_OUT | FIND_ON_PAGE | PRINT_TO_PDF | BOOKMARK_PAGE | SWITCH_TAB
    | RESIZE_WINDOW | NEW_CHAT | CRAWL_SITE | TAB_FORMAT_VERTICAL
    | TAB_FORMAT_HORIZONTAL_MULTIROWE | OPEN_NOTES | PROMPT_DISPLAY

  /** The wire name of a command, as it appears in the `"command"` field. */
  function Name(c: Command): string
  {
    match c
    case NAVIGATE => "NAVIGATE"
    case SEARCH => "SEARCH"
    case NONE => "NONE"
    case PROMPT => "PROMPT"
    case NEW_TAB => "NEW_TAB"
    case CLOSE_TAB => "CLOSE_TAB"
    case RELOAD => "RELOAD"
    case GO_BACK => "GO_BACK"
    case GO_FORWARD => "GO_FORWARD"
    case SET_COLOR => "SET_COLOR"
    case EDIT_PAGE => "EDIT_PAGE"
    case NEW_WINDOW => "NEW_WINDOW"
    case EDIT_CODE => "EDIT_CODE"
    case SET_FONT => "SET_FONT"
    case UPLOAD_FILE => "UPLOAD_FILE"
    case TOGGLE_SIDEBAR => "TOGGLE_SIDEBAR"
    case PROCESS_TEXT => "PROCESS_TEXT"
    case MANAGE_EXTENSIONS => "MANAGE_EXTENSIONS"
    case SYNC_DATA => "SYNC_DATA"
    case TRANSLATE_PAGE => "TRANSLATE_PAGE"
    case CHANGE_SETTINGS => "CHANGE_SETTINGS"
    case DEVELOPER_TOOLS => "DEVELOPER_TOOLS"
    case ZOOM_IN => "ZOOM_IN"
    case ZOOM_OUT => "ZOOM_OUT"
    case FIND_ON_PAGE => "FIND_ON_PAGE"
    case PRINT_TO_PDF => "PRINT_TO_PDF"
    case BOOKMARK_PAGE => "BOOKMARK_PAGE"
    case SWITCH_TAB => "SWITCH_TAB"
    case RESIZE_WINDOW => "RESIZE_WINDOW"
    case NEW_CHAT => "NEW_CHAT"
    case CRAWL_SITE => "CRAWL_SITE"
    case TAB_FORMAT_VERTICAL => "TAB_FORMAT_VERTICAL"
    case TAB_FORMAT_HORIZONTAL_MULTIROWE => "TAB_FORMAT_HORIZONTAL_MULTIROWE"
    case OPEN_NOTES => "OPEN_NOTES"
    case PROMPT_DISPLAY => "PROMPT_DISPLAY"
  }

  /** The only command whose wire name can be a text of this length,
      first letter and sixth letter (a space standing for a missing one):
      no two names agree on all three. */
  function Candidate(length: nat, first: char, sixth: char): Option<Command>
  {
    match length
    case 4 =>
      Some(NONE)
    case 6 =>
      if first == 'S' then Some(SEARCH)
      else if first == 'P' then Some(PROMPT)
      else if first == 'R' then Some(RELOAD)
      else None
    case 7 =>
      if first == 'N' then Some(NEW_TAB)
      else if first == 'G' then Some(GO_BACK)
      else if first == 'Z' then Some(ZOOM_IN)
      else None
    case 8 =>
      if sixth == 'A' then Some(NAVIGATE)
      else if first == 'S' then Some(SET_FONT)
      else if first == 'Z' then Some(ZOOM_OUT)
      else if sixth == 'H' then Some(NEW_CHAT)
      else None
    case 9 =>
      if first == 'C' then Some(CLOSE_TAB)
      else if sixth == 'O' then Some(SET_COLOR)
      else if sixth == 'P' then Some(EDIT_PAGE)
      else if sixth == 'C' then Some(EDIT_CODE)
      else if sixth == 'D' then Some(SYNC_DATA)
      else None
    case 10 =>
      if first == 'G' then Some(GO_FORWARD)
      else if first == 'N' then Some(NEW_WINDOW)
      else if first == 'S' then Some(SWITCH_TAB)
      else if first == 'C' then Some(CRAWL_SITE)
      else if first == 'O' then Some(OPEN_NOTES)
      else None
    case 11 =>
      Some(UPLOAD_FILE)
    case 12 =>
      if sixth == 'S' then Some(PROCESS_TEXT)
      else if first == 'F' then Some(FIND_ON_PAGE)
      else if sixth == '_' then Some(PRINT_TO_PDF)
      else None
    case 13 =>
      if first == 'B' then Some(BOOKMARK_PAGE)
      else if first == 'R' then Some(RESIZE_WINDOW)
      else None
    case 14 =>
      if sixth == 'E' then Some(TOGGLE_SIDEBAR)
      else if sixth == 'L' then Some(TRANSLATE_PAGE)
      else if first == 'P' then Some(PROMPT_DISPLAY)
      else None
    case 15 =>
      if first == 'C' then Some(CHANGE_SETTINGS)
      else if first == 'D' then Some(DEVELOPER_TOOLS)
      else None
    case 17 =>
      Some(MANAGE_EXTENSIONS)
    case 19 =>
      Some(TAB_FORMAT_VERTICAL)
    case 31 =>
      Some(TAB_FORMAT_HORIZONTAL_MULTIROWE)
    case _ => None
  }

  /** The command a wire name denotes; `None` for a name outside the
      vocabulary. The name is looked up by its length and two letters and
      then compared in full. */
  function FromName(s: string): (r: Option<Command>)
    ensures r.Some? ==> Name(r.value) == s
  {
    var c := Candidate(|s|, if |s| > 0 then s[0] else ' ', if |s| > 5 then s[5] else ' ');
    if c.Some? && Name(c.value) == s then c else None
  }

  /** Every command's wire name reads back as that command. */
  lemma FromNameName(c: Command)
    ensures FromName(Name(c)) == Some(c)
  {
    if c in {NAVIGATE, SEARCH, NONE, PROMPT, NEW_TAB} {
      ReadsBack0(c);
    } else if c in {CLOSE_TAB, RELOAD, GO_BACK, GO_FORWARD, SET_COLOR} {
      ReadsBack1(c);
    } else if c in {EDIT_PAGE, NEW_WINDOW, EDIT_CODE, SET_FONT, UPLOAD_FILE} {
      ReadsBack2(c);
    } else if c in {TOGGLE_SIDEBAR, PROCESS_TEXT, MANAGE_EXTENSIONS, SYNC_DATA} {
      ReadsBack3(c);
    } else if c in {TRANSLATE_PAGE, CHANGE_SETTINGS, DEVELOPER_TOOLS, ZOOM_IN} {
      ReadsBack4(c);
    } else if c in {ZOOM_OUT, FIND_ON_PAGE, PRINT_TO_PDF} {
      ReadsBack5(c);
    } else if c in {BOOKMARK_PAGE, SWITCH_TAB, RESIZE_WINDOW} {
      ReadsBack6(c);
    } else if c in {NEW_CHAT, CRAWL_SITE, TAB_FORMAT_VERTICAL} {
      ReadsBack7(c);
    } else {
      ReadsBack8(c);
    }
  }

  /** `FromNameName` for NAVIGATE, SEARCH, NONE, PROMPT and NEW_TAB. */
  lemma ReadsBack0(c: Command)
    requires c in {NAVIGATE, SEARCH, NONE, PROMPT, NEW_TAB}
    ensures FromName(Name(c)) == Some(c)
  {
  }

  /** `FromNameName` for CLOSE_TAB, RELOAD, GO_BACK, GO_FORWARD and SET_COLOR. */
  lemma ReadsBack1(c: Command)
    requires c in {CLOSE_TAB, RELOAD, GO_BACK, GO_FORWARD, SET_COLOR}
    ensures FromName(Name(c)) == Some(c)
  {
  }

  /** `FromNameName` for EDIT_PAGE, NEW_WINDOW, EDIT_CODE, SET_FONT and UPLOAD_FILE. */
  lemma ReadsBack2(c: Command)
    requires c in {EDIT_PAGE, NEW_WINDOW, EDIT_CODE, SET_FONT, UPLOAD_FILE}
    ensures FromName(Name(c)) == Some(c)
  {
  }

  /** `FromNameName` for TOGGLE_SIDEBAR, PROCESS_TEXT, MANAGE_EXTENSIONS and SYNC_DATA. */
  lemma ReadsBack3(c: Command)
    requires c in {TOGGLE_SIDEBAR, PROCESS_TEXT, MANAGE_EXTENSIONS, SYNC_DATA}
    ensures FromName(Name(c)) == Some(c)
  {
  }

  /** `FromNameName` for TRANSLATE_PAGE, CHANGE_SETTINGS, DEVELOPER_TOOLS and ZOOM_IN. */
  lemma ReadsBack4(c: Command)
    requires c in {TRANSLATE_PAGE, CHANGE_SETTINGS, DEVELOPER_TOOLS, ZOOM_IN}
    ensures FromName(Name(c)) == Some(c)
  {
  }

  /** `FromNameName` for ZOOM_OUT, FIND_ON_PAGE and PRINT_TO_PDF. */
  lemma ReadsBack5(c: Command)
    requires c in {ZOOM_OUT, FIND_ON_PAGE, PRINT_TO_PDF}
    ensures FromName(Name(c)) == Some(c)
  {
  }

  /** `FromNameName` for BOOKMARK_PAGE, SWITCH_TAB and RESIZE_WINDOW. */
  lemma ReadsBack6(c: Command)
    requires c in {BOOKMARK_PAGE, SWITCH_TAB, RESIZE_WINDOW}
    ensures FromName(Name(c)) == Some(c)
  {
  }

  /** `FromNameName` for NEW_CHAT, CRAWL_SITE and TAB_FORMAT_VERTICAL. */
  lemma ReadsBack7(c: Command)
    requires c in {NEW_CHAT, CRAWL_SITE, TAB_FORMAT_VERTICAL}
    ensures FromName(Name(c)) == Some(c)
  {
  }

  /** `FromNameName` for TAB_FORMAT_HORIZONTAL_MULTIROWE, OPEN_NOTES and PROMPT_DISPLAY. */
  lemma ReadsBack8(c: Command)
    requires c in {TAB_FORMAT_HORIZONTAL_MULTIROWE, OPEN_NOTES, PROMPT_DISPLAY}
    ensures FromName(Name(c)) == Some(c)
  {
  }

  /** `FromName` and `Name` are inverse: a text names a command exactly
      when it is that command's wire name. */
  lemma FromNameIff(s: string, c: Command)
    ensures FromName(s) == Some(c) <==> s == Name(c)
  {
    FromNameName(c);
  }

  /** Distinct commands have distinct wire names: the vocabulary has 35
      different names. */
  lemma NameInjective(a: Command, b: Command)
    requires Name(a) == Name(b)
    ensures a == b
  {
    FromNameName(a);
    FromNameName(b);
  }

  /** The number of commands the system instruction advertises. */
  const Count := 35

  /** Where a command stands in the advertised list, counted from 0. */
  function Position(c: Command): (i: nat)
    ensures i < Count
  {
    match c
    case NAVIGATE => 0
    case SEARCH => 1
    case NONE => 2
    case PROMPT => 3
    case NEW_TAB => 4
    case CLOSE_TAB => 5
    case RELOAD => 6
    case GO_BACK => 7
    case GO_FORWARD => 8
    case SET_COLOR => 9
    case EDIT_PAGE => 10
    case NEW_WINDOW => 11
    case EDIT_CODE => 12
    case SET_FONT => 13
    case UPLOAD_FILE => 14
    case TOGGLE_SIDEBAR => 15
    case PROCESS_TEXT => 16
    case MANAGE_EXTENSIONS => 17
    case SYNC_DATA => 18
    case TRANSLATE_PAGE => 19
    case CHANGE_SETTINGS => 20
    case DEVELOPER_TOOLS => 21
    case ZOOM_IN => 22
    case ZOOM_OUT => 23
    case FIND_ON_PAGE => 24
    case PRINT_TO_PDF => 25
    case BOOKMARK_PAGE => 26
    case SWITCH_TAB => 27
    case RESIZE_WINDOW => 28
    case NEW_CHAT => 29
    case CRAWL_SITE => 30
    case TAB_FORMAT_VERTICAL => 31
    case TAB_FORMAT_HORIZONTAL_MULTIROWE => 32
    case OPEN_NOTES => 33
    case PROMPT_DISPLAY => 34
  }

  /** The command advertised at position `i`. */
  function AtPosition(i: nat): Command
    requires i < Count
  {
    match i
    case 0 => NAVIGATE
    case 1 => SEARCH
    case 2 => NONE
    case 3 => PROMPT
    case 4 => NEW_TAB
    case 5 => CLOSE_TAB
    case 6 => RELOAD
    case 7 => GO_BACK
    case 8 => GO_FORWARD
    case 9 => SET_COLOR
    case 10 => EDIT_PAGE
    case 11 => NEW_WINDOW
    case 12 => EDIT_CODE
    case 13 => SET_FONT
    case 14 => UPLOAD_FILE
    case 15 => TOGGLE_SIDEBAR
    case 16 => PROCESS_TEXT
    case 17 => MANAGE_EXTENSIONS
    case 18 => SYNC_DATA
    case 19 => TRANSLATE_PAGE
    case 20 => CHANGE_SETTINGS
    case 21 => DEVELOPER_TOOLS
    case 22 => ZOOM_IN
    case 23 => ZOOM_OUT
    case 24 => FIND_ON_PAGE
    case 25 => PRINT_TO_PDF
    case 26 => BOOKMARK_PAGE
    case 27 => SWITCH_TAB
    case 28 => RESIZE_WINDOW
    case 29 => NEW_CHAT
    case 30 => CRAWL_SITE
    case 31 => TAB_FORMAT_VERTICAL
    case 32 => TAB_FORMAT_HORIZONTAL_MULTIROWE
    case 33 => OPEN_NOTES
    case _ => PROMPT_DISPLAY
  }

  /** The advertised list, in order. */
  function Advertised(): (l: seq<Command>)
    ensures |l| == Count
  {
    seq(Count, i requires 0 <= i < Count => AtPosition(i))
  }

  /** Every command is found at its own position ... */
  lemma AtPositionOfPosition(c: Command)
    ensures AtPosition(Position(c)) == c
  {
    match c
    case NAVIGATE =>
    case SEARCH =>
    case NONE =>
    case PROMPT =>
    case NEW_TAB =>
    case CLOSE_TAB =>
    case RELOAD =>
    case GO_BACK =>
    case GO_FORWARD =>
    case SET_COLOR =>
    case EDIT_PAGE =>
    case NEW_WINDOW =>
    case EDIT_CODE =>
    case SET_FONT =>
    case UPLOAD_FILE =>
    case TOGGLE_SIDEBAR =>
    case PROCESS_TEXT =>
    case MANAGE_EXTENSIONS =>
    case SYNC_DATA =>
    case TRANSLATE_PAGE =>
    case CHANGE_SETTINGS =>
    case DEVELOPER_TOOLS =>
    case ZOOM_IN =>
    case ZOOM_OUT =>
    case FIND_ON_PAGE =>
    case PRINT_TO_PDF =>
    case BOOKMARK_PAGE =>
    case SWITCH_TAB =>
    case RESIZE_WINDOW =>
    case NEW_CHAT =>
    case CRAWL_SITE =>
    case TAB_FORMAT_VERTICAL =>
    case TAB_FORMAT_HORIZONTAL_MULTIROWE =>
    case OPEN_NOTES =>
    case PROMPT_DISPLAY =>
  }

  /** ... and every position holds the command standing there. */
  lemma PositionOfAtPosition(i: nat)
    requires i < Count
    ensures Position(AtPosition(i)) == i
  {
  }

  /** The vocabulary is closed and has exactly 35 members: the advertised
      list names every command, and names each one only once. */
  lemma AdvertisedIsVocabulary()
    ensures |Advertised()| == 35
    ensures forall c :: c in Advertised()
    ensures forall i, j :: 0 <= i < j < |Advertised()| ==> Advertised()[i] != Advertised()[j]
  {
    var l := Advertised();
    forall c
      ensures c in l
    {
      AtPositionOfPosition(c);
      assert l[Position(c)] == c;
    }
    forall i, j | 0 <= i < j < |l|
      ensures l[i] != l[j]
    {
      PositionOfAtPosition(i);
      PositionOfAtPosition(j);
    }
  }
}
