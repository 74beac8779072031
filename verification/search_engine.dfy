/** The browser's default-search-engine preference: the configuration file
    as the browser finds it at start-up, and the search-URL prefix and
    notice dialog that `load_default_search_engine` derives from it. */
module SearchEngine {
  import opened Wrappers
  import opened PyStr

  const GoogleUrl := "https://www.google.com/search?q="
  const DuckDuckGoUrl := "https://duckduckgo.com/?q="
  const YahooUrl := "https://search.yahoo.com/search?p="
  const EcosiaUrl := "https://www.ecosia.org/search?q="

  /** A JSON value stored under `"default_search_engine"`: a string, or
      anything else (a number, a list, `null`, …). */
  datatype EngineValue = Text(name: string) | NotText

  /** The configuration file as found at start-up: missing; present but
      unreadable, not JSON, or not a JSON object; or an object whose
      `"default_search_engine"` entry is `engine` (`None` when absent). */
  datatype ConfigFile = Missing | Broken | Parsed(engine: Option<EngineValue>)

  /** A message box shown while loading the preference. */
  datatype Notice = Notice(title: string, text: string)

  datatype SearchSetup = SearchSetup(url: string, notice: Option<Notice>)

  const SetupIncomplete := Notice("Setup Incomplete", "Please run ringzauber_intro.py to set your preferences.")
  const ConfigError := Notice("Configuration Error", "Could not load default search engine. Using Google.")

  /** The search-URL prefix for an engine name, compared after lowering;
      every unrecognised name selects Google. */
  function EngineUrl(name: string): (url: string)
    ensures url != GoogleUrl <==> Lower(name) in {"duckduckgo", "yahoo", "ecosia"}
    ensures Lower(name) == "duckduckgo" ==> url == DuckDuckGoUrl
    ensures Lower(name) == "yahoo" ==> url == YahooUrl
    ensures Lower(name) == "ecosia" ==> url == EcosiaUrl
  {
    var key := Lower(name);
    if key == "duckduckgo" then DuckDuckGoUrl
    else if key == "yahoo" then YahooUrl
    else if key == "ecosia" then EcosiaUrl
    else GoogleUrl
  }

  /** `load_default_search_engine`: the prefix the session searches with,
      and the message box shown on the way. Only a readable configuration
      naming one of the three alternative engines leaves Google; a missing
      file or a failure while reading it also shows a notice. */
  function LoadDefaultSearchEngine(config: ConfigFile): (r: SearchSetup)
    ensures r.url in {GoogleUrl, DuckDuckGoUrl, YahooUrl, EcosiaUrl}
    ensures r.url != GoogleUrl <==>
      config.Parsed? && config.engine.Some? && config.engine.value.Text?
      && Lower(config.engine.value.name) in {"duckduckgo", "yahoo", "ecosia"}
    ensures config.Missing? <==> r.notice == Some(SetupIncomplete)
    ensures r.notice == Some(ConfigError) <==>
      config.Broken? || (config.Parsed? && config.engine == Some(NotText))
    ensures r.notice.None? <==> config.Parsed? && config.engine != Some(NotText)
  {
    match config
    case Missing => SearchSetup(GoogleUrl, Some(SetupIncomplete))
    case Broken => SearchSetup(GoogleUrl, Some(ConfigError))
    case Parsed(None) =>
      assert Lower("google") == "google";
      SearchSetup(EngineUrl("google"), None)
    case Parsed(Some(Text(name))) => SearchSetup(EngineUrl(name), None)
    case Parsed(Some(NotText)) => SearchSetup(GoogleUrl, Some(ConfigError))
  }

  /** The three names the setup wizard writes each select their own engine,
      none of them Google. */
  lemma WizardNamesSelectTheirEngine()
    ensures EngineUrl("Ecosia") == EcosiaUrl
    ensures EngineUrl("DuckDuckGo") == DuckDuckGoUrl
    ensures EngineUrl("Yahoo") == YahooUrl
  {
    assert Lower("Ecosia") == "ecosia";
    assert Lower("DuckDuckGo") == "duckduckgo";
    assert Lower("Yahoo") == "yahoo";
  }

  /** A name spelled with the Kelvin sign for `K` lowers to "duckduckgo",
      so it selects DuckDuckGo as well. */
  lemma KelvinSignSelectsDuckDuckGo()
    ensures EngineUrl("DUC\U{212A}DUC\U{212A}GO") == DuckDuckGoUrl
  {
    assert Lower("DUC\U{212A}DUC\U{212A}GO") == "duckduckgo";
  }

  /** Every prefix the browser can search with is an `https://` address
      containing a dot and no space, so a search URL built from it is
      recognised as an address by the URL bar. */
  predicate AddressLike(prefix: string) {
    StartsWith(prefix, "https://") && '.' in prefix && ' ' !in prefix
  }

  lemma EngineUrlsAddressLike(config: ConfigFile)
    ensures AddressLike(LoadDefaultSearchEngine(config).url)
  {
    var u := LoadDefaultSearchEngine(config).url;
    if u == GoogleUrl { GoogleAddressLike(); }
    else if u == DuckDuckGoUrl { DuckDuckGoAddressLike(); }
    else if u == YahooUrl { YahooAddressLike(); }
    else { EcosiaAddressLike(); }
  }

  lemma GoogleAddressLike() ensures AddressLike(GoogleUrl) {
    assert GoogleUrl[11] == '.';
  }

  lemma DuckDuckGoAddressLike() ensures AddressLike(DuckDuckGoUrl) {
    assert DuckDuckGoUrl[18] == '.';
  }

  lemma YahooAddressLike() ensures AddressLike(YahooUrl) {
    assert YahooUrl[14] == '.';
  }

  lemma EcosiaAddressLike() ensures AddressLike(EcosiaUrl) {
    assert EcosiaUrl[11] == '.';
  }
}
