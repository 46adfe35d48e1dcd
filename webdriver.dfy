/**
 * The remote Chrome session the scrapers drive, seen from outside: the
 * options a session is started with, how each session behaves (the
 * environment's choice), and the driver calls the scraper makes on it.
 */
module WebDriver {
  import opened Wrappers
  import opened JsonValues
  import MarketWatchPage

  /** A cookie as the driver hands it over: a dict of attributes. */
  type Cookie = map<string, Json>

  datatype ChromeOptions = ChromeOptions(arguments: seq<string>, experimentalOptions: map<string, Json>)

  /** The Chrome options of a session. */
  function ChromeOptionsFor(headless: bool, userAgent: string): ChromeOptions {
    ChromeOptions(
      (if headless then ["--headless=new"] else [])
        + ["--incognito", "--disable-blink-features=AutomationControlled", "--user-agent=" + userAgent],
      map["excludeSwitches" := JArray([JString("enable-automation")]),
          "useAutomationExtension" := JBool(false)])
  }

  /**
   * A session runs headless only when configured, always incognito,
   * without the automation flag and extension, and with the user agent
   * drawn for it as the last argument.
   */
  lemma ChromeOptionsContents(headless: bool, userAgent: string)
    ensures var o := ChromeOptionsFor(headless, userAgent);
      && ("--headless=new" in o.arguments <==> headless)
      && "--incognito" in o.arguments
      && "--disable-blink-features=AutomationControlled" in o.arguments
      && |o.arguments| > 0 && o.arguments[|o.arguments| - 1] == "--user-agent=" + userAgent
      && "excludeSwitches" in o.experimentalOptions
      && o.experimentalOptions["excludeSwitches"] == JArray([JString("enable-automation")])
      && "useAutomationExtension" in o.experimentalOptions
      && o.experimentalOptions["useAutomationExtension"] == JBool(false)
  {
    var o := ChromeOptionsFor(headless, userAgent);
    var agent := "--user-agent=" + userAgent;
    assert agent[2] == 'u';
    if headless {
      assert o.arguments == ["--headless=new", "--incognito", "--disable-blink-features=AutomationControlled", agent];
    } else {
      assert o.arguments == ["--incognito", "--disable-blink-features=AutomationControlled", agent];
      assert "--headless=new" != agent by { assert "--headless=new"[2] != agent[2]; }
    }
  }

  /**
   * The subscriber banner `#cx-scrim-wrapper`: absent, or shown or hidden,
   * with its `.close-btn` absent (`None`) or shown or hidden.
   */
  datatype Banner =
    | NoBanner
    | Banner(displayed: bool, closeButton: Option<bool>)

  /** A stock page as loaded: its HTML text, the `src` of each `/html/body/script`, its banner, the session's cookies and the parsed tree. */
  datatype LoadedPage = LoadedPage(
    source: string,
    bodyScriptSrcs: seq<string>,
    banner: Banner,
    cookies: seq<Cookie>,
    dom: MarketWatchPage.StockPage)

  /**
   * How one browser session behaves: it cannot be created, or it is created
   * and (`baseUrlFails`) loading the site's base address raises, and
   * loading the stock page raises (`None`) or gives a page.
   */
  datatype Session =
    | SessionFailed
    | Session(baseUrlFails: bool, stockPage: Option<LoadedPage>)

  /** What the scraper asks of a session. */
  datatype DriverCall =
    | Start(options: ChromeOptions)
    | Get(url: string)
    | AddCookie(cookie: Cookie)
    | ClickClose
    | GetCookies
    | Quit

  /** Why an attempt raises. */
  datatype Fault =
    | SessionError        // creating the remote session raised
    | NavigationError     // a page load raised
    | NoSuchElement       // an element the code requires is not on the page
    | AttributeError      // the settings object lacks an attribute the code reads

  /** The calls that add each cookie of the jar, in jar order; none when the jar is unset. */
  function AddCookieCalls(jar: Option<seq<Cookie>>): (calls: seq<DriverCall>)
    ensures jar.None? ==> calls == []
    ensures jar.Some? ==> |calls| == |jar.value| && forall i :: 0 <= i < |calls| ==> calls[i] == AddCookie(jar.value[i])
  {
    if jar.None? then []
    else AddCookieCallsOf(jar.value)
  }

  function AddCookieCallsOf(cookies: seq<Cookie>): (calls: seq<DriverCall>)
    ensures |calls| == |cookies| && forall i :: 0 <= i < |calls| ==> calls[i] == AddCookie(cookies[i])
  {
    if |cookies| == 0 then [] else AddCookieCallsOf(cookies[..|cookies| - 1]) + [AddCookie(cookies[|cookies| - 1])]
  }

  /** How many times the call occurs in a trace. */
  function Occurrences(calls: seq<DriverCall>, c: DriverCall): (n: nat)
    ensures n <= |calls|
  {
    if |calls| == 0 then 0
    else Occurrences(calls[..|calls| - 1], c) + (if calls[|calls| - 1] == c then 1 else 0)
  }

  lemma {:induction false} OccurrencesAppend(a: seq<DriverCall>, b: seq<DriverCall>, c: DriverCall)
    ensures Occurrences(a + b, c) == Occurrences(a, c) + Occurrences(b, c)
    decreases |b|
  {
    if |b| == 0 {
      assert a + b == a;
    } else {
      assert (a + b)[..|a + b| - 1] == a + b[..|b| - 1];
      OccurrencesAppend(a, b[..|b| - 1], c);
    }
  }


  /** How many sessions a trace starts. */
  function Starts(calls: seq<DriverCall>): (n: nat)
    ensures n <= |calls|
  {
    if |calls| == 0 then 0
    else Starts(calls[..|calls| - 1]) + (if calls[|calls| - 1].Start? then 1 else 0)
  }

  lemma {:induction false} StartsAppend(a: seq<DriverCall>, b: seq<DriverCall>)
    ensures Starts(a + b) == Starts(a) + Starts(b)
    decreases |b|
  {
    if |b| == 0 {
      assert a + b == a;
    } else {
      assert (a + b)[..|a + b| - 1] == a + b[..|b| - 1];
      StartsAppend(a, b[..|b| - 1]);
    }
  }

  /** Adding cookies neither starts nor ends a session. */
  lemma {:induction false} AddCookieCallsNeutral(cookies: seq<Cookie>)
    ensures Starts(AddCookieCallsOf(cookies)) == 0
    ensures Occurrences(AddCookieCallsOf(cookies), Quit) == 0
    decreases |cookies|
  {
    if |cookies| > 0 {
      AddCookieCallsNeutral(cookies[..|cookies| - 1]);
    }
  }

  /**
   * The mock-like remote browser: `sessions(n)` is how the n-th session
   * requested behaves and `userAgents(n)` the random user agent drawn for
   * it; `started` counts the sessions requested and `calls` records the
   * driver calls made.
   */
  class RemoteBrowser {
    const sessions: nat -> Session
    const userAgents: nat -> string
    var started: nat
    var calls: seq<DriverCall>

    constructor (sessions: nat -> Session, userAgents: nat -> string)
      ensures this.sessions == sessions && this.userAgents == userAgents
      ensures started == 0 && calls == []
    {
      this.sessions := sessions;
      this.userAgents := userAgents;
      started := 0;
      calls := [];
    }

    /** Requests a new session; it behaves as the environment says. */
    method NewSession() returns (s: Session)
      modifies this
      ensures s == sessions(old(started))
      ensures started == old(started) + 1 && calls == old(calls)
    {
      s := sessions(started);
      started := started + 1;
    }

    /** Records one call on the current session. */
    method Call(c: DriverCall)
      modifies this
      ensures calls == old(calls) + [c] && started == old(started)
    {
      calls := calls + [c];
    }
  }
}
