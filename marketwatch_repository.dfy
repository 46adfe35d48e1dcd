/**
 * The MarketWatch scraper of the service: a page fetch memoized per
 * (repository, symbol) and retried on bot detection, a cookie jar shared by
 * every repository that carries the anti-bot cookie from one session to the
 * next, and the three reads of the fetched page.
 */
module MarketWatchRepository {
  import opened Wrappers
  import opened JsonValues
  import opened WebDriver
  import opened RetryPolicy
  import LruCache
  import AppConfig
  import MarketWatchPage
  import StockResponse

  /** `stop_after_attempt(10)`. */
  const MaxAttempts: nat := 10

  /** The address of a symbol's stock page. */
  function StockPageUrl(baseUrl: string, symbol: string): (u: string)
    ensures |u| == |baseUrl| + |"/investing/stock/"| + |symbol|
    ensures u[..|baseUrl|] == baseUrl && u[|u| - |symbol|..] == symbol
  {
    baseUrl + "/investing/stock/" + symbol
  }

  /** The jar every process starts with: the single `datadome` cookie. */
  const InitialCookies: seq<Cookie> := [
    map[
      "domain" := JString(".marketwatch.com"),
      "hostOnly" := JBool(false),
      "httpOnly" := JBool(false),
      "name" := JString("datadome"),
      "path" := JString("/"),
      "sameSite" := JString("Lax"),
      "secure" := JBool(true),
      "session" := JBool(false),
      "storeId" := JString("0"),
      "value" := JString("Zx~2lSVM4otlHRuJdSmuaWEFopnrcmo5f58eaqgvFdj3iSVkbdNzEuaVjIVPpZoiAR_n3obvgc7vzjrDTaJs163lH5vb2Pz6qlOWA0PXuuZ4wvL3z8QZplcsCZwUGAaV")
    ]
  ]

  // ---------------------------------------------------------------------
  // Page checks

  const CaptchaMarker: string := "captcha-delivery"

  predicate OccursAt(s: string, sub: string, i: nat) {
    i + |sub| <= |s| && s[i..i + |sub|] == sub
  }

  function ContainsFrom(s: string, sub: string, i: nat): (b: bool)
    ensures b <==> exists j :: i <= j && OccursAt(s, sub, j)
    decreases |s| - i
  {
    if i + |sub| > |s| then false
    else if s[i..i + |sub|] == sub then assert OccursAt(s, sub, i); true
    else ContainsFrom(s, sub, i + 1)
  }

  /** `_is_captcha_open`: the page text mentions the CAPTCHA provider. */
  function IsCaptchaOpen(source: string): (b: bool)
    ensures b <==> exists j :: OccursAt(source, CaptchaMarker, j)
  {
    ContainsFrom(source, CaptchaMarker, 0)
  }

  /** Wherever the marker sits in the text, the page counts as a CAPTCHA. */
  lemma CaptchaAnywhere(before: string, after: string)
    ensures IsCaptchaOpen(before + CaptchaMarker + after)
  {
    var s := before + CaptchaMarker + after;
    assert s[|before|..|before| + |CaptchaMarker|] == CaptchaMarker;
    assert OccursAt(s, CaptchaMarker, |before|);
  }

  /** A text too short for the marker is never a CAPTCHA. */
  lemma ShortTextIsNoCaptcha(source: string)
    requires |source| < |CaptchaMarker|
    ensures !IsCaptchaOpen(source)
  {
  }

  /**
   * `_close_subscriber_banner`: no banner, nothing to do; a shown banner
   * must hold a close button (the lookup raises otherwise), which is
   * clicked when shown. The result says whether a click happened.
   */
  function CloseSubscriberBanner(b: Banner): (r: Result<bool, Fault>)
    ensures r == Ok(true) <==> b.Banner? && b.displayed && b.closeButton == Some(true)
    ensures r.Err? <==> b.Banner? && b.displayed && b.closeButton.None?
    ensures r.Err? ==> r.error == NoSuchElement
    ensures b.NoBanner? ==> r == Ok(false)
  {
    match b
    case NoBanner => Ok(false)
    case Banner(displayed, closeButton) =>
      if !displayed then Ok(false)
      else match closeButton
        case None => Err(NoSuchElement)
        case Some(shown) => Ok(shown)
  }

  // ---------------------------------------------------------------------
  // One attempt, as a function of how its session behaves

  /** How an attempt ends once the base address has loaded; `None` is a stock page load that raised. */
  function LoadOutcome(page: Option<LoadedPage>): Outcome<LoadedPage, Fault> {
    if page.None? then Failure(NavigationError)
    else if IsCaptchaOpen(page.value.source) then BotDetected
    else match CloseSubscriberBanner(page.value.banner)
      case Err(f) => Failure(f)
      case Ok(_) => Success(page.value)
  }

  /** How an attempt ends. */
  function AttemptOutcome(s: Session): (r: Outcome<LoadedPage, Fault>)
    ensures r.Success? ==> s.Session? && !s.baseUrlFails && s.stockPage == Some(r.value)
    ensures r.BotDetected? ==> s.Session? && !s.baseUrlFails && s.stockPage.Some?
                               && IsCaptchaOpen(s.stockPage.value.source)
  {
    match s
    case SessionFailed => Failure(SessionError)
    case Session(baseUrlFails, page) =>
      if baseUrlFails then Failure(NavigationError) else LoadOutcome(page)
  }

  /**
   * A session that cannot be created, or whose page loads raise, fails the
   * attempt; a loaded page showing the CAPTCHA is a bot detection; any
   * other page is returned, with its cookies, once its banner is dealt with.
   */
  lemma AttemptOutcomeCases(s: Session)
    ensures var o := AttemptOutcome(s);
      && (s.SessionFailed? ==> o == Failure(SessionError))
      && (s.Session? && (s.baseUrlFails || s.stockPage.None?) ==> o == Failure(NavigationError))
      && (o.BotDetected? <==>
           s.Session? && !s.baseUrlFails && s.stockPage.Some? && IsCaptchaOpen(s.stockPage.value.source))
      && (o.Success? <==>
           s.Session? && !s.baseUrlFails && s.stockPage.Some? && !IsCaptchaOpen(s.stockPage.value.source)
           && CloseSubscriberBanner(s.stockPage.value.banner).Ok?)
      && (o.Success? ==> o.value == s.stockPage.value)
      && (o.Failure? && s.Session? && !s.baseUrlFails && s.stockPage.Some? ==> o == Failure(NoSuchElement))
  {
  }

  /** The calls made once the stock page has loaded. */
  function PageCalls(page: Option<LoadedPage>): seq<DriverCall> {
    if LoadOutcome(page).Success? then
      (if CloseSubscriberBanner(page.value.banner) == Ok(true) then [ClickClose] else []) + [GetCookies]
    else []
  }

  /** The calls made once the base address has loaded: the cookies, the stock page and what follows. */
  function LoadCalls(jar: Option<seq<Cookie>>, url: string, page: Option<LoadedPage>): seq<DriverCall> {
    AddCookieCalls(jar) + [Get(url)] + PageCalls(page)
  }

  /** The calls made on a created session before it is quit. */
  function SessionCalls(settings: AppConfig.Settings, userAgent: string, jar: Option<seq<Cookie>>,
                        symbol: string, baseUrlFails: bool, page: Option<LoadedPage>): seq<DriverCall>
  {
    [Start(ChromeOptionsFor(settings.seleniumHeadlessMode, userAgent)), Get(settings.marketwatchBaseUrl)]
    + (if baseUrlFails then [] else LoadCalls(jar, StockPageUrl(settings.marketwatchBaseUrl, symbol), page))
  }

  /** The driver calls of an attempt, the jar being `jar` when it starts. */
  function AttemptCalls(settings: AppConfig.Settings, userAgent: string, jar: Option<seq<Cookie>>,
                        symbol: string, s: Session): (calls: seq<DriverCall>)
    ensures s.SessionFailed? <==> calls == []
    ensures s.Session? ==> calls[0] == Start(ChromeOptionsFor(settings.seleniumHeadlessMode, userAgent))
                           && calls[|calls| - 1] == Quit
  {
    match s
    case SessionFailed => []
    case Session(baseUrlFails, page) => SessionCalls(settings, userAgent, jar, symbol, baseUrlFails, page) + [Quit]
  }

  /** No call of the list starts or quits a session. */
  predicate Neutral(calls: seq<DriverCall>) {
    forall i :: 0 <= i < |calls| ==> !calls[i].Start? && calls[i] != Quit
  }

  lemma {:induction false} NeutralCounts(calls: seq<DriverCall>)
    requires Neutral(calls)
    ensures Starts(calls) == 0 && Occurrences(calls, Quit) == 0
    decreases |calls|
  {
    if |calls| > 0 {
      NeutralCounts(calls[..|calls| - 1]);
    }
  }

  /** The calls after the base address neither start nor quit a session. */
  lemma LoadCallsNeutral(jar: Option<seq<Cookie>>, url: string, page: Option<LoadedPage>)
    ensures Starts(LoadCalls(jar, url, page)) == 0
    ensures Occurrences(LoadCalls(jar, url, page), Quit) == 0
  {
    var adds := AddCookieCalls(jar);
    var pc := PageCalls(page);
    assert Neutral(pc);
    assert Neutral(adds);
    var calls := LoadCalls(jar, url, page);
    assert calls == adds + [Get(url)] + pc;
    assert Neutral(calls) by {
      forall i | 0 <= i < |calls| ensures !calls[i].Start? && calls[i] != Quit {
        if i < |adds| {
          assert calls[i] == adds[i];
        } else if i > |adds| {
          assert calls[i] == pc[i - |adds| - 1];
        }
      }
    }
    NeutralCounts(calls);
  }

  /** Every session an attempt creates is started first and quit exactly once, last. */
  lemma AttemptClosesItsSession(settings: AppConfig.Settings, userAgent: string, jar: Option<seq<Cookie>>,
                                symbol: string, s: Session)
    ensures var calls := AttemptCalls(settings, userAgent, jar, symbol, s);
      && Starts(calls) == (if s.SessionFailed? then 0 else 1)
      && Occurrences(calls, Quit) == Starts(calls)
      && (s.Session? ==> calls[|calls| - 1] == Quit && calls[0].Start?)
  {
    if s.Session? {
      var url := StockPageUrl(settings.marketwatchBaseUrl, symbol);
      var head := [Start(ChromeOptionsFor(settings.seleniumHeadlessMode, userAgent)), Get(settings.marketwatchBaseUrl)];
      var load := if s.baseUrlFails then [] else LoadCalls(jar, url, s.stockPage);
      LoadCallsNeutral(jar, url, s.stockPage);
      assert Starts(load) == 0 && Occurrences(load, Quit) == 0;
      var body := SessionCalls(settings, userAgent, jar, symbol, s.baseUrlFails, s.stockPage);
      assert body == head + load;
      StartsAppend(head, load);
      OccurrencesAppend(head, load, Quit);
      StartsAppend(body, [Quit]);
      OccurrencesAppend(body, [Quit], Quit);
    }
  }

  /**
   * Before the stock page is requested, the base address is loaded and
   * every jar cookie is added, in jar order.
   */
  lemma CookiesBeforeStockPage(settings: AppConfig.Settings, userAgent: string, jar: Option<seq<Cookie>>,
                               symbol: string, s: Session)
    requires s.Session? && !s.baseUrlFails
    ensures var calls := AttemptCalls(settings, userAgent, jar, symbol, s);
      var adds := AddCookieCalls(jar);
      && 3 + |adds| <= |calls|
      && calls[1..3 + |adds|] == [Get(settings.marketwatchBaseUrl)] + adds + [Get(StockPageUrl(settings.marketwatchBaseUrl, symbol))]
  {
    var url := StockPageUrl(settings.marketwatchBaseUrl, symbol);
    var adds := AddCookieCalls(jar);
    var start := Start(ChromeOptionsFor(settings.seleniumHeadlessMode, userAgent));
    var calls := AttemptCalls(settings, userAgent, jar, symbol, s);
    var rest := PageCalls(s.stockPage) + [Quit];
    assert calls == [start] + ([Get(settings.marketwatchBaseUrl)] + adds + [Get(url)]) + rest;
  }

  /** A bot-detected attempt neither clicks the banner away nor reads the session's cookies. */
  lemma BotDetectionReadsNothing(settings: AppConfig.Settings, userAgent: string, jar: Option<seq<Cookie>>,
                              symbol: string, s: Session)
    requires AttemptOutcome(s).BotDetected?
    ensures ClickClose !in AttemptCalls(settings, userAgent, jar, symbol, s)
    ensures GetCookies !in AttemptCalls(settings, userAgent, jar, symbol, s)
  {
    assert PageCalls(s.stockPage) == [];
    var calls := AttemptCalls(settings, userAgent, jar, symbol, s);
    var adds := AddCookieCalls(jar);
    assert forall i :: 0 <= i < |adds| ==> adds[i].AddCookie?;
    assert calls == [Start(ChromeOptionsFor(settings.seleniumHeadlessMode, userAgent)), Get(settings.marketwatchBaseUrl)]
      + adds + [Get(StockPageUrl(settings.marketwatchBaseUrl, symbol))] + [Quit];
  }

  /** The steps `s0`, `s0 + 1`, ..., `s0 + count - 1`, one after the other. */
  function ConcatFrom<X>(steps: nat -> seq<X>, s0: nat, count: nat): seq<X> {
    if count == 0 then [] else ConcatFrom(steps, s0, count - 1) + steps(s0 + count - 1)
  }

  /** Steps that each quit as many sessions as they start make a trace that does too. */
  lemma {:induction false} ConcatFromBalanced(steps: nat -> seq<DriverCall>, s0: nat, count: nat)
    requires forall k :: s0 <= k < s0 + count ==> Occurrences(steps(k), Quit) == Starts(steps(k))
    ensures Occurrences(ConcatFrom(steps, s0, count), Quit) == Starts(ConcatFrom(steps, s0, count))
  {
    if count > 0 {
      ConcatFromBalanced(steps, s0, count - 1);
      StartsAppend(ConcatFrom(steps, s0, count - 1), steps(s0 + count - 1));
      OccurrencesAppend(ConcatFrom(steps, s0, count - 1), steps(s0 + count - 1), Quit);
    }
  }

  lemma AppendAssociates<X>(a: seq<X>, b: seq<X>, c: seq<X>)
    ensures a + b + c == a + (b + c)
  {
  }

  lemma PairThenRest<X>(a: seq<X>, x: X, y: X, rest: seq<X>, z: X)
    ensures a + [x] + [y] + rest + [z] == a + ([x, y] + rest + [z])
  {
  }

  // ---------------------------------------------------------------------
  // Results of the three reads

  /** What `_get_stock_page_html` hands on: the parsed tree of the page a retried fetch returned. */
  function ParsedPage(fetched: RetryResult<LoadedPage, Fault>): (r: RetryResult<MarketWatchPage.StockPage, Fault>)
    ensures fetched.Returned? <==> r.Returned?
    ensures fetched.Returned? ==> r.value == fetched.value.dom
    ensures fetched.Raised? ==> r == Raised(fetched.fault)
    ensures fetched.RetryError? ==> r == RetryError
  {
    match fetched
    case Returned(page) => Returned(page.dom)
    case Raised(f) => Raised(f)
    case RetryError => RetryError
  }

  datatype RepositoryError =
    | FetchFailed(fault: Fault)
    | RetriesExhausted
    | ScrapeFailed(error: MarketWatchPage.ScrapeError)

  /** A read of the fetched page, or the error of the fetch. */
  function ReadFetched<T>(fetched: RetryResult<MarketWatchPage.StockPage, Fault>,
                          read: MarketWatchPage.StockPage -> Result<T, MarketWatchPage.ScrapeError>)
    : (r: Result<T, RepositoryError>)
    ensures fetched.Raised? ==> r == Err(FetchFailed(fetched.fault))
    ensures fetched.RetryError? ==> r == Err(RetriesExhausted)
    ensures fetched.Returned? && read(fetched.value).Ok? ==> r == Ok(read(fetched.value).value)
    ensures fetched.Returned? && read(fetched.value).Err? ==> r == Err(ScrapeFailed(read(fetched.value).error))
  {
    match fetched
    case Raised(f) => Err(FetchFailed(f))
    case RetryError => Err(RetriesExhausted)
    case Returned(page) =>
      match read(page)
      case Ok(v) => Ok(v)
      case Err(e) => Err(ScrapeFailed(e))
  }

  // ---------------------------------------------------------------------
  // State

  /** The class-level cookie jar, shared by every repository. */
  class CookieJar {
    var cookies: Option<seq<Cookie>>

    constructor ()
      ensures cookies == Some(InitialCookies)
    {
      cookies := Some(InitialCookies);
    }
  }

  class MarketWatchRepository {
    const settings: AppConfig.Settings
    const jar: CookieJar
    const memo: LruCache.Cache<(MarketWatchRepository, string), MarketWatchPage.StockPage>
    const browser: RemoteBrowser

    /** The memo table is `lru_cache`'s bare-decorator table, bounded by 128 results. */
    ghost predicate Valid()
      reads memo
    {
      memo.Valid() && memo.maxSize == LruCache.DefaultMaxSize
    }

    constructor (settings: AppConfig.Settings, jar: CookieJar,
                 memo: LruCache.Cache<(MarketWatchRepository, string), MarketWatchPage.StockPage>,
                 browser: RemoteBrowser)
      requires memo.Valid() && memo.maxSize == LruCache.DefaultMaxSize
      ensures Valid()
      ensures this.settings == settings && this.jar == jar && this.memo == memo && this.browser == browser
    {
      this.settings := settings;
      this.jar := jar;
      this.memo := memo;
      this.browser := browser;
    }

    /** How an attempt on the k-th session requested ends. */
    function SessionOutcome(k: nat): Outcome<LoadedPage, Fault> {
      AttemptOutcome(browser.sessions(k))
    }

    /** How attempt `j` of a fetch whose first session is number `s0` ends. */
    function Outcomes(s0: nat): (f: nat -> Outcome<LoadedPage, Fault>)
      ensures forall j :: f(j) == SessionOutcome(s0 + j)
    {
      (j: nat) => SessionOutcome(s0 + j)
    }

    /** What `_get_stock_page_html(symbol)` gives with this memo table and this next session number. */
    function Fetched(entries: seq<((MarketWatchRepository, string), MarketWatchPage.StockPage)>,
                     started: nat, symbol: string): (r: RetryResult<MarketWatchPage.StockPage, Fault>)
      ensures LruCache.Lookup(entries, (this, symbol)).Some? ==>
        r == Returned(LruCache.Lookup(entries, (this, symbol)).value)
      ensures LruCache.Lookup(entries, (this, symbol)).None? ==>
        r == ParsedPage(Retry(Outcomes(started), MaxAttempts).result)
    {
      match LruCache.Lookup(entries, (this, symbol))
      case Some(p) => Returned(p)
      case None => ParsedPage(Retry(Outcomes(started), MaxAttempts).result)
    }

    /** The calls an attempt on session `k` makes, the jar being `jar` when it starts. */
    function SessionSteps(jar: Option<seq<Cookie>>, symbol: string): (f: nat -> seq<DriverCall>)
      ensures forall k :: f(k) == AttemptCalls(settings, browser.userAgents(k), jar, symbol, browser.sessions(k))
    {
      (k: nat) => AttemptCalls(settings, browser.userAgents(k), jar, symbol, browser.sessions(k))
    }

    /** The calls of `count` attempts from session `s0` on, all starting with the jar `jar`. */
    function AttemptsTrace(s0: nat, count: nat, jar: Option<seq<Cookie>>, symbol: string): seq<DriverCall>
    {
      ConcatFrom(SessionSteps(jar, symbol), s0, count)
    }

    lemma AttemptsTraceStep(s0: nat, n: nat, jar: Option<seq<Cookie>>, symbol: string)
      ensures AttemptsTrace(s0, n + 1, jar, symbol)
        == AttemptsTrace(s0, n, jar, symbol)
           + AttemptCalls(settings, browser.userAgents(s0 + n), jar, symbol, browser.sessions(s0 + n))
    {
    }

    /** `steps(k)` is the calls of an attempt on session `k`. */
    ghost predicate StepsDescribe(jar0: Option<seq<Cookie>>, symbol: string, steps: nat -> seq<DriverCall>) {
      forall k {:trigger AttemptCalls(settings, browser.userAgents(k), jar0, symbol, browser.sessions(k))} ::
        steps(k) == AttemptCalls(settings, browser.userAgents(k), jar0, symbol, browser.sessions(k))
    }

    /** However many attempts a fetch makes, it quits every session it creates. */
    lemma FetchQuitsEverySession(s0: nat, count: nat, jar: Option<seq<Cookie>>, symbol: string)
      ensures Occurrences(AttemptsTrace(s0, count, jar, symbol), Quit) == Starts(AttemptsTrace(s0, count, jar, symbol))
    {
      var steps := SessionSteps(jar, symbol);
      forall k | s0 <= k < s0 + count ensures Occurrences(steps(k), Quit) == Starts(steps(k)) {
        AttemptClosesItsSession(settings, browser.userAgents(k), jar, symbol, browser.sessions(k));
      }
      ConcatFromBalanced(steps, s0, count);
    }

    /** `_set_cookies`: load the base address, then add every jar cookie in order. */
    method SetCookies(baseUrlFails: bool) returns (ok: bool)
      modifies browser
      ensures ok == !baseUrlFails
      ensures browser.started == old(browser.started)
      ensures browser.calls == old(browser.calls) + [Get(settings.marketwatchBaseUrl)]
                               + (if ok then AddCookieCalls(jar.cookies) else [])
    {
      browser.Call(Get(settings.marketwatchBaseUrl));
      if baseUrlFails {
        return false;
      }
      ok := true;
      var start := browser.calls;
      match jar.cookies
      case None =>
      case Some(cookies) =>
        var i := 0;
        while i < |cookies|
          invariant 0 <= i <= |cookies|
          invariant browser.started == old(browser.started)
          invariant browser.calls == start + AddCookieCallsOf(cookies[..i])
        {
          browser.Call(AddCookie(cookies[i]));
          assert cookies[..i + 1][..i] == cookies[..i];
          i := i + 1;
        }
        assert cookies[..|cookies|] == cookies;
    }

    /** `_save_cookies`: the jar is replaced wholesale by the session's cookies. */
    method SaveCookies(sessionCookies: seq<Cookie>)
      modifies jar, browser
      ensures jar.cookies == Some(sessionCookies)
      ensures browser.calls == old(browser.calls) + [GetCookies] && browser.started == old(browser.started)
    {
      browser.Call(GetCookies);
      jar.cookies := Some(sessionCookies);
    }

    /** Dismisses the banner as `_close_subscriber_banner` does, recording the click. */
    method CloseBanner(b: Banner) returns (r: Result<bool, Fault>)
      modifies browser
      ensures r == CloseSubscriberBanner(b)
      ensures browser.calls == old(browser.calls) + (if r == Ok(true) then [ClickClose] else [])
      ensures browser.started == old(browser.started)
    {
      r := CloseSubscriberBanner(b);
      if r == Ok(true) {
        browser.Call(ClickClose);
      }
    }

    /** The stock page has loaded: CAPTCHA check, banner, and saving the session's cookies. */
    method ReadStockPage(page: Option<LoadedPage>) returns (o: Outcome<LoadedPage, Fault>)
      modifies browser, jar
      ensures o == LoadOutcome(page)
      ensures browser.calls == old(browser.calls) + PageCalls(page) && browser.started == old(browser.started)
      ensures o.Success? ==> jar.cookies == Some(o.value.cookies)
      ensures !o.Success? ==> jar.cookies == old(jar.cookies)
    {
      if page.None? {
        return Failure(NavigationError);
      }
      if IsCaptchaOpen(page.value.source) {
        return BotDetected;
      }
      var banner := CloseBanner(page.value.banner);
      if banner.Err? {
        return Failure(banner.error);
      }
      SaveCookies(page.value.cookies);
      o := Success(page.value);
    }

    /**
     * The body of `with webdriver.Remote(...) as driver` once the session
     * exists: prime the cookies, load the stock page and read it.
     */
    method Browse(symbol: string, baseUrlFails: bool, page: Option<LoadedPage>) returns (o: Outcome<LoadedPage, Fault>)
      modifies browser, jar
      ensures o == AttemptOutcome(Session(baseUrlFails, page))
      ensures o.Success? ==> jar.cookies == Some(o.value.cookies)
      ensures !o.Success? ==> jar.cookies == old(jar.cookies)
      ensures browser.started == old(browser.started)
      ensures browser.calls == old(browser.calls) + [Get(settings.marketwatchBaseUrl)]
        + (if baseUrlFails then [] else LoadCalls(old(jar.cookies), StockPageUrl(settings.marketwatchBaseUrl, symbol), page))
    {
      ghost var jar0 := jar.cookies;
      ghost var calls0 := browser.calls;
      var primed := SetCookies(baseUrlFails);
      if !primed {
        return Failure(NavigationError);
      }
      var url := StockPageUrl(settings.marketwatchBaseUrl, symbol);
      browser.Call(Get(url));
      assert browser.calls == calls0 + [Get(settings.marketwatchBaseUrl)] + (AddCookieCalls(jar0) + [Get(url)]);
      o := ReadStockPage(page);
    }

    /** The body of the `with` block on a created session, and leaving it. */
    method OnSession(symbol: string, userAgent: string, baseUrlFails: bool, page: Option<LoadedPage>)
      returns (o: Outcome<LoadedPage, Fault>)
      modifies browser, jar
      ensures browser.started == old(browser.started)
      ensures o == AttemptOutcome(Session(baseUrlFails, page))
      ensures o.Success? ==> jar.cookies == Some(o.value.cookies)
      ensures !o.Success? ==> jar.cookies == old(jar.cookies)
      ensures browser.calls == old(browser.calls)
        + (SessionCalls(settings, userAgent, old(jar.cookies), symbol, baseUrlFails, page) + [Quit])
    {
      ghost var jar0 := jar.cookies;
      ghost var calls0 := browser.calls;
      var options := ChromeOptionsFor(settings.seleniumHeadlessMode, userAgent);
      browser.Call(Start(options));
      ghost var base := Get(settings.marketwatchBaseUrl);
      ghost var rest := if baseUrlFails then []
                        else LoadCalls(jar0, StockPageUrl(settings.marketwatchBaseUrl, symbol), page);
      o := Browse(symbol, baseUrlFails, page);
      assert browser.calls == calls0 + [Start(options)] + [base] + rest;
      browser.Call(Quit);
      PairThenRest(calls0, Start(options), base, rest, Quit);
    }

    /** One attempt of `_get_stock_page_html`, inside `with webdriver.Remote(...) as driver`. */
    method FetchAttempt(symbol: string) returns (o: Outcome<LoadedPage, Fault>)
      modifies browser, jar
      ensures browser.started == old(browser.started) + 1
      ensures o == AttemptOutcome(browser.sessions(old(browser.started)))
      ensures o.Success? ==> jar.cookies == Some(o.value.cookies)
      ensures !o.Success? ==> jar.cookies == old(jar.cookies)
      ensures browser.calls == old(browser.calls)
        + AttemptCalls(settings, browser.userAgents(old(browser.started)), old(jar.cookies), symbol,
                       browser.sessions(old(browser.started)))
    {
      var userAgent := browser.userAgents(browser.started);
      var s := browser.NewSession();
      if s.SessionFailed? {
        return Failure(SessionError);
      }
      o := OnSession(symbol, userAgent, s.baseUrlFails, s.stockPage);
    }

    method NextAttempt(symbol: string, ghost s0: nat, ghost n: nat, ghost jar0: Option<seq<Cookie>>,
                       ghost calls0: seq<DriverCall>, ghost steps: nat -> seq<DriverCall>)
      returns (o: Outcome<LoadedPage, Fault>)
      requires StepsDescribe(jar0, symbol, steps)
      requires browser.started == s0 + n && jar.cookies == jar0
      requires browser.calls == calls0 + ConcatFrom(steps, s0, n)
      modifies browser, jar
      ensures browser.started == s0 + n + 1
      ensures o == SessionOutcome(s0 + n)
      ensures o.Success? ==> jar.cookies == Some(o.value.cookies)
      ensures !o.Success? ==> jar.cookies == jar0
      ensures browser.calls == calls0 + ConcatFrom(steps, s0, n + 1)
    {
      ghost var before := browser.calls;
      o := FetchAttempt(symbol);
      assert browser.calls == before + steps(s0 + n);
      AppendAssociates(calls0, ConcatFrom(steps, s0, n), steps(s0 + n));
    }

    method AttemptFrom(symbol: string, ghost s0: nat, n: nat, ghost jar0: Option<seq<Cookie>>,
                       ghost calls0: seq<DriverCall>, ghost steps: nat -> seq<DriverCall>)
      returns (r: RetryResult<LoadedPage, Fault>)
      requires n < MaxAttempts
      requires StepsDescribe(jar0, symbol, steps)
      requires browser.started == s0 + n && jar.cookies == jar0
      requires browser.calls == calls0 + ConcatFrom(steps, s0, n)
      modifies browser, jar
      ensures var run := RunFrom(Outcomes(s0), MaxAttempts, n);
        && r == run.result
        && browser.started == s0 + run.attempts
        && browser.calls == calls0 + ConcatFrom(steps, s0, run.attempts)
      ensures r.Returned? ==> jar.cookies == Some(r.value.cookies)
      ensures !r.Returned? ==> jar.cookies == jar0
      decreases MaxAttempts - n
    {
      ghost var outcomes := Outcomes(s0);
      var o := NextAttempt(symbol, s0, n, jar0, calls0, steps);
      assert o == outcomes(n);
      if o.BotDetected? && n + 1 < MaxAttempts {
        RunFromContinues(outcomes, MaxAttempts, n);
        r := AttemptFrom(symbol, s0, n + 1, jar0, calls0, steps);
      } else {
        RunFromStops(outcomes, MaxAttempts, n);
        r := Ending(o);
      }
    }

    /** The whole retried fetch: the jar takes the cookies of the session whose page is returned. */
    method FetchWithRetry(symbol: string) returns (r: RetryResult<LoadedPage, Fault>)
      modifies browser, jar
      ensures var run := Retry(Outcomes(old(browser.started)), MaxAttempts);
        && r == run.result
        && browser.started == old(browser.started) + run.attempts
        && browser.calls == old(browser.calls) + AttemptsTrace(old(browser.started), run.attempts, old(jar.cookies), symbol)
      ensures r.Returned? ==> jar.cookies == Some(r.value.cookies)
      ensures !r.Returned? ==> jar.cookies == old(jar.cookies)
    {
      ghost var steps := SessionSteps(jar.cookies, symbol);
      assert browser.calls == browser.calls + ConcatFrom(steps, browser.started, 0);
      r := AttemptFrom(symbol, browser.started, 0, jar.cookies, browser.calls, steps);
    }

    /**
     * What `_get_stock_page_html` leaves behind for `symbol`. A returned page
     * is memoised. A hit makes no browser call, keeps the jar and makes its
     * entry the most recent. A miss runs the retried fetch, whose calls are
     * recorded, gives the jar the cookies of a returned session, and stores a
     * returned page; a raised fetch stores nothing.
     */
    twostate predicate FetchEffect(symbol: string)
      reads memo, browser, jar
    {
      var fetched := Fetched(old(memo.entries), old(browser.started), symbol);
      && (fetched.Returned? ==> LruCache.Lookup(memo.entries, (this, symbol)) == Some(fetched.value))
      && (LruCache.Lookup(old(memo.entries), (this, symbol)).Some? ==>
            && browser.started == old(browser.started) && browser.calls == old(browser.calls)
            && jar.cookies == old(jar.cookies)
            && memo.entries == LruCache.Touch(old(memo.entries), (this, symbol)))
      && (LruCache.Lookup(old(memo.entries), (this, symbol)).None? ==>
            var run := Retry(Outcomes(old(browser.started)), MaxAttempts);
            && browser.started == old(browser.started) + run.attempts
            && browser.calls == old(browser.calls) + AttemptsTrace(old(browser.started), run.attempts, old(jar.cookies), symbol)
            && jar.cookies == (if run.result.Returned? then Some(run.result.value.cookies) else old(jar.cookies))
            && memo.entries == (if fetched.Returned? then LruCache.Insert(old(memo.entries), (this, symbol), fetched.value, memo.maxSize)
                                else old(memo.entries)))
    }

    /**
     * `_get_stock_page_html`: the memo table first; on a miss, the retried
     * fetch; a returned page is stored, a raised call stores nothing.
     */
    method GetStockPageHtml(symbol: string) returns (r: RetryResult<MarketWatchPage.StockPage, Fault>)
      requires Valid()
      modifies memo, browser, jar
      ensures Valid()
      ensures r == Fetched(old(memo.entries), old(browser.started), symbol)
      ensures FetchEffect(symbol)
    {
      var key := (this, symbol);
      var cached := memo.Get(key);
      if cached.Some? {
        LruCache.TouchKeepsContents(old(memo.entries), key, memo.maxSize);
        return Returned(cached.value);
      }
      var fetched := FetchWithRetry(symbol);
      r := ParsedPage(fetched);
      if r.Returned? {
        memo.Put(key, r.value);
      }
    }

    /** `get_stock_performance_by_symbol`: the performance record of the fetched page. */
    method GetStockPerformanceBySymbol(symbol: string, toFloat: StockResponse.FloatParser)
      returns (r: Result<StockResponse.PerformanceData, RepositoryError>)
      requires Valid()
      modifies memo, browser, jar
      ensures Valid()
      ensures r == ReadFetched(Fetched(old(memo.entries), old(browser.started), symbol),
                               (p: MarketWatchPage.StockPage) => MarketWatchPage.GetPerformance(p, toFloat))
      ensures FetchEffect(symbol)
    {
      var page := GetStockPageHtml(symbol);
      r := ReadFetched(page, (p: MarketWatchPage.StockPage) => MarketWatchPage.GetPerformance(p, toFloat));
    }

    /** `get_stock_competitors_by_symbol`: one record per competitor row of the fetched page. */
    method GetStockCompetitorsBySymbol(symbol: string)
      returns (r: Result<seq<StockResponse.CompetitorData>, RepositoryError>)
      requires Valid()
      modifies memo, browser, jar
      ensures Valid()
      ensures r == ReadFetched(Fetched(old(memo.entries), old(browser.started), symbol), MarketWatchPage.GetCompetitors)
      ensures FetchEffect(symbol)
    {
      var page := GetStockPageHtml(symbol);
      r := ReadFetched(page, MarketWatchPage.GetCompetitors);
    }

    /** `get_company_name_by_symbol`: the company name of the fetched page. */
    method GetCompanyNameBySymbol(symbol: string) returns (r: Result<string, RepositoryError>)
      requires Valid()
      modifies memo, browser, jar
      ensures Valid()
      ensures r == ReadFetched(Fetched(old(memo.entries), old(browser.started), symbol), MarketWatchPage.GetCompanyName)
      ensures FetchEffect(symbol)
    {
      var page := GetStockPageHtml(symbol);
      r := ReadFetched(page, MarketWatchPage.GetCompanyName);
    }
  }
}
