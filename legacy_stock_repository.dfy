/**
 * The older revision of the service's repositories (one module in the
 * `stocks_api` package): a scraper with a 5-attempt retry, no cookie jar and
 * `driver.quit()` in a `finally`; a market-data client that hands back the
 * raw document; a purchase ledger; and the composite that merges the three
 * into one `StockData`.
 */
module LegacyStockRepository {
  import opened Wrappers
  import opened JsonValues
  import opened WebDriver
  import opened RetryPolicy
  import LruCache
  import AppConfig
  import Dates
  import MarketWatchPage
  import StockResponse
  import MarketWatchRepository
  import OpenCloseStockRepository
  import PurchasesRepository

  /** `stop_after_attempt(5)`. */
  const MaxAttempts: nat := 5

  /** The script whose presence under `/html/body` counts as the CAPTCHA. */
  const CaptchaScriptSrc: string := "https://ct.captcha-delivery.com/c.js"

  // ---------------------------------------------------------------------
  // Page checks

  /** `_is_captcha_open`: some body script has exactly the CAPTCHA provider's address as `src`. */
  function IsCaptchaOpen(bodyScriptSrcs: seq<string>): (b: bool)
    ensures b <==> exists i :: 0 <= i < |bodyScriptSrcs| && bodyScriptSrcs[i] == CaptchaScriptSrc
  {
    CaptchaScriptSrc in bodyScriptSrcs
  }

  /** Only an exact `src` counts: a page without body scripts is never a CAPTCHA. */
  lemma NoScriptsNoCaptcha()
    ensures !IsCaptchaOpen([])
    ensures IsCaptchaOpen([CaptchaScriptSrc])
  {
    assert [CaptchaScriptSrc][0] == CaptchaScriptSrc;
  }

  /**
   * `_close_subscriber_banner` of this revision: the banner lookup has no
   * handler, so a page without the banner raises; a shown banner must hold
   * a close button, which is clicked when shown. The result says whether a
   * click happened.
   */
  function CloseSubscriberBanner(b: Banner): (r: Result<bool, Fault>)
    ensures b.NoBanner? ==> r == Err(NoSuchElement)
    ensures r == Ok(true) <==> b.Banner? && b.displayed && b.closeButton == Some(true)
    ensures r.Err? <==> b.NoBanner? || (b.displayed && b.closeButton.None?)
    ensures r.Err? ==> r.error == NoSuchElement
  {
    match b
    case NoBanner => Err(NoSuchElement)
    case Banner(displayed, closeButton) =>
      if !displayed then Ok(false)
      else match closeButton
        case None => Err(NoSuchElement)
        case Some(shown) => Ok(shown)
  }

  /** The two revisions deal with a banner alike; they differ only when it is absent. */
  lemma BannerDiffersOnlyWhenAbsent(b: Banner)
    ensures b.Banner? ==> CloseSubscriberBanner(b) == MarketWatchRepository.CloseSubscriberBanner(b)
    ensures b.NoBanner? ==> CloseSubscriberBanner(b).Err? && MarketWatchRepository.CloseSubscriberBanner(b) == Ok(false)
  {
  }

  // ---------------------------------------------------------------------
  // One attempt

  /** How an attempt ends once its session exists; `None` is a stock page load that raised. */
  function PageOutcome(page: Option<LoadedPage>): (r: Outcome<LoadedPage, Fault>)
    ensures r.Success? ==> page == Some(r.value) && !IsCaptchaOpen(r.value.bodyScriptSrcs)
    ensures r.BotDetected? <==> page.Some? && IsCaptchaOpen(page.value.bodyScriptSrcs)
  {
    if page.None? then Failure(NavigationError)
    else if IsCaptchaOpen(page.value.bodyScriptSrcs) then BotDetected
    else match CloseSubscriberBanner(page.value.banner)
      case Err(f) => Failure(f)
      case Ok(_) => Success(page.value)
  }

  /**
   * How an attempt ends. This revision never loads the base address, so a
   * session's `baseUrlFails` is not read.
   */
  function AttemptOutcome(s: Session): (r: Outcome<LoadedPage, Fault>)
    ensures r.Success? || r.BotDetected? ==> s.Session? && s.stockPage.Some?
    ensures r.Success? ==> s.stockPage == Some(r.value)
  {
    match s
    case SessionFailed => Failure(SessionError)
    case Session(_, page) => PageOutcome(page)
  }

  /**
   * A session that cannot be created, or a stock page that does not load,
   * fails the attempt; the CAPTCHA script makes it a bot detection; a page
   * without the banner fails it with an error that is not retried.
   */
  lemma AttemptOutcomeCases(s: Session)
    ensures var o := AttemptOutcome(s);
      && (s.SessionFailed? ==> o == Failure(SessionError))
      && (s.Session? && s.stockPage.None? ==> o == Failure(NavigationError))
      && (o.BotDetected? <==> s.Session? && s.stockPage.Some? && IsCaptchaOpen(s.stockPage.value.bodyScriptSrcs))
      && (o.Success? <==>
           s.Session? && s.stockPage.Some? && !IsCaptchaOpen(s.stockPage.value.bodyScriptSrcs)
           && CloseSubscriberBanner(s.stockPage.value.banner).Ok?)
      && (o.Success? ==> o.value == s.stockPage.value)
      && ((s.Session? && s.stockPage.Some? && !IsCaptchaOpen(s.stockPage.value.bodyScriptSrcs)
           && s.stockPage.value.banner.NoBanner?) ==> o == Failure(NoSuchElement))
  {
  }

  /** The calls made after the stock page is requested. */
  function BannerCalls(page: Option<LoadedPage>): seq<DriverCall> {
    if page.Some? && !IsCaptchaOpen(page.value.bodyScriptSrcs)
       && CloseSubscriberBanner(page.value.banner) == Ok(true)
    then [ClickClose] else []
  }

  /** The driver calls of an attempt; the `finally` quits every session that was created. */
  function AttemptCalls(settings: AppConfig.Settings, userAgent: string, symbol: string, s: Session): (calls: seq<DriverCall>)
    ensures s.SessionFailed? <==> calls == []
    ensures s.Session? ==> calls[0] == Start(ChromeOptionsFor(settings.seleniumHeadlessMode, userAgent))
                           && calls[|calls| - 1] == Quit
  {
    match s
    case SessionFailed => []
    case Session(_, page) =>
      [Start(ChromeOptionsFor(settings.seleniumHeadlessMode, userAgent)),
       Get(MarketWatchRepository.StockPageUrl(settings.marketwatchBaseUrl, symbol))]
      + BannerCalls(page) + [Quit]
  }

  /**
   * `driver.quit()` runs on every exit from an attempt that created a
   * session (a page, a bot detection or any other exception): the session
   * is started once, first, and quit once, last.
   */
  lemma AttemptQuitsOnEveryExit(settings: AppConfig.Settings, userAgent: string, symbol: string, s: Session)
    ensures var calls := AttemptCalls(settings, userAgent, symbol, s);
      && Starts(calls) == (if s.SessionFailed? then 0 else 1)
      && Occurrences(calls, Quit) == Starts(calls)
      && (s.Session? ==> calls[0].Start? && calls[|calls| - 1] == Quit)
  {
    if s.Session? {
      var start := [Start(ChromeOptionsFor(settings.seleniumHeadlessMode, userAgent))];
      var mid := [Get(MarketWatchRepository.StockPageUrl(settings.marketwatchBaseUrl, symbol))] + BannerCalls(s.stockPage);
      assert MarketWatchRepository.Neutral(mid);
      MarketWatchRepository.NeutralCounts(mid);
      var calls := AttemptCalls(settings, userAgent, symbol, s);
      assert calls == start + mid + [Quit];
      StartsAppend(start, mid);
      OccurrencesAppend(start, mid, Quit);
      StartsAppend(start + mid, [Quit]);
      OccurrencesAppend(start + mid, [Quit], Quit);
    }
  }

  /** This revision keeps no cookie jar: an attempt neither adds nor reads cookies. */
  lemma AttemptTouchesNoCookies(settings: AppConfig.Settings, userAgent: string, symbol: string, s: Session)
    ensures forall i :: 0 <= i < |AttemptCalls(settings, userAgent, symbol, s)| ==>
      !AttemptCalls(settings, userAgent, symbol, s)[i].AddCookie? && AttemptCalls(settings, userAgent, symbol, s)[i] != GetCookies
  {
  }

  // ---------------------------------------------------------------------
  // The settings this revision reads

  /** The attribute names `_get_stock_page_html` reads from the settings, in evaluation order. */
  const ScraperSettingsRead: seq<string> := ["remote_chrome_webdriver_address", "selenium_headless_mode", "marketwatch_base_url"]

  /**
   * An attempt as written, on a settings object declaring `declared`:
   * `webdriver.Remote(command_executor=settings.remote_chrome_webdriver_address,
   * options=self._chrome_options)` reads the two browser attributes before
   * any session is requested, and an undeclared one raises AttributeError.
   */
  function AttemptAsWritten(declared: set<string>, s: Session): (o: Outcome<LoadedPage, Fault>)
    ensures "remote_chrome_webdriver_address" !in declared ==> o == Failure(AttributeError)
    ensures "selenium_headless_mode" !in declared ==> o == Failure(AttributeError)
  {
    if "remote_chrome_webdriver_address" !in declared then Failure(AttributeError)
    else if "selenium_headless_mode" !in declared then Failure(AttributeError)
    else AttemptOutcome(s)
  }

  /** Whether an attempt as written gets as far as requesting a session. */
  function RequestsSessionAsWritten(declared: set<string>): bool {
    "remote_chrome_webdriver_address" in declared && "selenium_headless_mode" in declared
  }

  /**
   * With this revision's own settings class, which declares only the API
   * key and the two base URLs, every fetch raises AttributeError on its
   * first attempt, is not retried, and never requests a browser session.
   */
  lemma LegacySettingsBreakFetch(sessions: nat -> Session)
    ensures !RequestsSessionAsWritten(AppConfig.LegacySettingsFields)
    ensures Retry((j: nat) => AttemptAsWritten(AppConfig.LegacySettingsFields, sessions(j)), MaxAttempts)
         == Run(1, Raised(AttributeError))
  {
    var outcome := (j: nat) => AttemptAsWritten(AppConfig.LegacySettingsFields, sessions(j));
    assert "remote_chrome_webdriver_address" !in AppConfig.LegacySettingsFields;
    var first := AttemptAsWritten(AppConfig.LegacySettingsFields, sessions(0));
    assert first == Failure(AttributeError);
    assert outcome(0) == first;
    RunFromStops(outcome, MaxAttempts, 0);
  }

  /**
   * Settings declaring the browser attributes, as the service's current
   * settings class does, make an attempt as written the attempt the
   * scraper below performs.
   */
  lemma ServiceSettingsDeclareScraperFields(s: Session)
    ensures forall i :: 0 <= i < |ScraperSettingsRead| ==> ScraperSettingsRead[i] in AppConfig.AppSettingsFields
    ensures RequestsSessionAsWritten(AppConfig.AppSettingsFields)
    ensures AttemptAsWritten(AppConfig.AppSettingsFields, s) == AttemptOutcome(s)
  {
  }

  // ---------------------------------------------------------------------
  // The market-data client

  /** How this revision's market-data call ends without a document. */
  datatype ApiError =
    | ApiHttpError(statusCode: int, detail: string)   // an HTTP error raised to the caller
    | ApiBodyNotJson                                  // decoding the body as JSON raised
    | ApiRequestFailed                                // the client's transport error, not caught

  /**
   * `ApiStockRepository.get_daily_open_close_sotck`: the same request as the
   * current revision; 200 hands back the decoded document as it is.
   */
  function ApiGetDailyOpenClose(settings: AppConfig.Settings, symbol: string, date: Dates.Date,
                                get: string -> OpenCloseStockRepository.HttpOutcome): (r: Result<Json, ApiError>)
    ensures var o := get(OpenCloseStockRepository.OpenCloseUri(settings, symbol, date));
      && (r == Err(ApiRequestFailed) <==> o.RequestFailed?)
      && (r.Ok? <==> o.Response? && o.statusCode == 200 && o.body.Some?)
      && (r.Ok? ==> o.body == Some(r.value))
      && (r == Err(ApiHttpError(404, OpenCloseStockRepository.NotFoundDetail(symbol))) <==>
            o.Response? && o.statusCode == 404)
      && (r == Err(ApiHttpError(500, OpenCloseStockRepository.SupportMessage)) <==>
            o.Response? && o.statusCode != 200 && o.statusCode != 404 && o.body.Some?)
      && (r == Err(ApiBodyNotJson) <==> o.Response? && o.statusCode != 404 && o.body.None?)
  {
    match get(OpenCloseStockRepository.OpenCloseUri(settings, symbol, date))
    case RequestFailed => Err(ApiRequestFailed)
    case Response(code, body) =>
      if code == 200 then
        match body
        case None => Err(ApiBodyNotJson)
        case Some(j) => Ok(j)
      else if code == 404 then Err(ApiHttpError(404, OpenCloseStockRepository.NotFoundDetail(symbol)))
      else if body.None? then Err(ApiBodyNotJson)
      else Err(ApiHttpError(500, OpenCloseStockRepository.SupportMessage))
  }

  /** The current revision's error for one of this revision's errors; a transport error has none. */
  function AsCurrentError(e: ApiError): (c: Option<OpenCloseStockRepository.OpenCloseError>)
    ensures c.None? <==> e.ApiRequestFailed?
  {
    match e
    case ApiHttpError(code, detail) => Some(OpenCloseStockRepository.HttpError(code, detail))
    case ApiBodyNotJson => Some(OpenCloseStockRepository.BodyNotJson)
    case ApiRequestFailed => None
  }

  /**
   * The two revisions' clients differ in two places only: this one lets a
   * transport error propagate where the current one reports the internal
   * error, and on a 200 this one returns the raw document where the current
   * one validates it. Every other response ends in the same error.
   */
  lemma ApiRevisionsAgree(settings: AppConfig.Settings, symbol: string, date: Dates.Date,
                          get: string -> OpenCloseStockRepository.HttpOutcome, toFloat: StockResponse.FloatParser)
    ensures var o := get(OpenCloseStockRepository.OpenCloseUri(settings, symbol, date));
            var legacy := ApiGetDailyOpenClose(settings, symbol, date, get);
            var current := OpenCloseStockRepository.GetDailyOpenCloseStock(settings, symbol, date, get, toFloat);
      && (o.RequestFailed? ==>
            legacy == Err(ApiRequestFailed)
            && current == Err(OpenCloseStockRepository.HttpError(500, OpenCloseStockRepository.SupportMessage)))
      && (o.Response? && !(o.statusCode == 200 && o.body.Some?) ==>
            legacy.Err? && current == Err(AsCurrentError(legacy.error).value))
      && (o.Response? && o.statusCode == 200 && o.body.Some? ==>
            legacy == Ok(o.body.value)
            && (current.Ok? <==> OpenCloseStockRepository.ValidateDailyOpenClose(o.body.value, toFloat).Ok?))
  {
  }

  // ---------------------------------------------------------------------
  // This revision's performance record

  /** A required float field read under its page label only. */
  function LabelField(values: map<string, string>, name: string, pageLabel: string,
                      toFloat: StockResponse.FloatParser): (r: Result<real, StockResponse.FieldError>)
    ensures pageLabel !in values ==> r == Err(StockResponse.Missing(name))
    ensures pageLabel in values ==>
      r == (if toFloat(values[pageLabel]).Some? then Ok(toFloat(values[pageLabel]).value)
            else Err(StockResponse.InvalidValue(name)))
  {
    if pageLabel !in values then Err(StockResponse.Missing(name))
    else match toFloat(values[pageLabel])
      case None => Err(StockResponse.InvalidValue(name))
      case Some(x) => Ok(x)
  }

  /**
   * `PerformanceData.model_validate` of this revision: each field's alias
   * is its page label alone; the report lists every failing field in field
   * order.
   */
  function ValidatePerformance(values: map<string, string>, toFloat: StockResponse.FloatParser)
    : (r: Result<StockResponse.PerformanceData, seq<StockResponse.FieldError>>)
    ensures r.Ok? <==>
      && LabelField(values, "five_days", "5 Day", toFloat).Ok?
      && LabelField(values, "one_month", "1 Month", toFloat).Ok?
      && LabelField(values, "three_months", "3 Month", toFloat).Ok?
      && LabelField(values, "year_to_date", "YTD", toFloat).Ok?
      && LabelField(values, "one_year", "1 Year", toFloat).Ok?
    ensures r.Ok? ==> r.value == StockResponse.PerformanceData(
      LabelField(values, "five_days", "5 Day", toFloat).value,
      LabelField(values, "one_month", "1 Month", toFloat).value,
      LabelField(values, "three_months", "3 Month", toFloat).value,
      LabelField(values, "year_to_date", "YTD", toFloat).value,
      LabelField(values, "one_year", "1 Year", toFloat).value)
    ensures r.Err? ==> |r.error| > 0
  {
    var f1 := LabelField(values, "five_days", "5 Day", toFloat);
    var f2 := LabelField(values, "one_month", "1 Month", toFloat);
    var f3 := LabelField(values, "three_months", "3 Month", toFloat);
    var f4 := LabelField(values, "year_to_date", "YTD", toFloat);
    var f5 := LabelField(values, "one_year", "1 Year", toFloat);
    if f1.Ok? && f2.Ok? && f3.Ok? && f4.Ok? && f5.Ok? then
      Ok(StockResponse.PerformanceData(f1.value, f2.value, f3.value, f4.value, f5.value))
    else
      Err(StockResponse.ErrorsOf(f1) + StockResponse.ErrorsOf(f2) + StockResponse.ErrorsOf(f3)
          + StockResponse.ErrorsOf(f4) + StockResponse.ErrorsOf(f5))
  }

  /**
   * Where every page label is present, this revision's record is the
   * current revision's; a field under its own name alone is missing here.
   */
  lemma PerformanceRevisionsAgree(values: map<string, string>, toFloat: StockResponse.FloatParser)
    ensures ("5 Day" in values && "1 Month" in values && "3 Month" in values && "YTD" in values && "1 Year" in values)
      ==> ValidatePerformance(values, toFloat) == StockResponse.ValidatePerformance(values, toFloat)
    ensures "5 Day" !in values ==>
      ValidatePerformance(values, toFloat).Err?
      && StockResponse.Missing("five_days") in ValidatePerformance(values, toFloat).error
  {
    StockResponse.LabelBeforeName(values, "five_days", "5 Day", toFloat);
    StockResponse.LabelBeforeName(values, "one_month", "1 Month", toFloat);
    StockResponse.LabelBeforeName(values, "three_months", "3 Month", toFloat);
    StockResponse.LabelBeforeName(values, "year_to_date", "YTD", toFloat);
    StockResponse.LabelBeforeName(values, "one_year", "1 Year", toFloat);
  }

  /** `get_stock_performance_by_symbol`'s reading of a page, with this revision's record. */
  function GetPerformance(page: MarketWatchPage.StockPage, toFloat: StockResponse.FloatParser)
    : (r: Result<StockResponse.PerformanceData, MarketWatchPage.ScrapeError>)
    ensures page.performance.None? ==> r == Err(MarketWatchPage.MissingElement("div.performance"))
    ensures page.performance.Some? && MarketWatchPage.PerformanceMap(page.performance.value).Err? ==>
      r == Err(MarketWatchPage.PerformanceMap(page.performance.value).error)
    ensures page.performance.Some? && MarketWatchPage.PerformanceMap(page.performance.value).Ok? ==>
      r == (match ValidatePerformance(MarketWatchPage.PerformanceMap(page.performance.value).value, toFloat)
            case Ok(p) => Ok(p)
            case Err(es) => Err(MarketWatchPage.Validation(es)))
  {
    match page.performance
    case None => Err(MarketWatchPage.MissingElement("div.performance"))
    case Some(rows) =>
      match MarketWatchPage.PerformanceMap(rows)
      case Err(e) => Err(e)
      case Ok(m) =>
        match ValidatePerformance(m, toFloat)
        case Ok(p) => Ok(p)
        case Err(es) => Err(MarketWatchPage.Validation(es))
  }

  // ---------------------------------------------------------------------
  // The merge

  datatype CompositeError =
    | MarketDataFailed(apiError: ApiError)
    | StockValuesInvalid(errors: seq<StockResponse.FieldError>)
    | ScraperFailed(scraperError: MarketWatchRepository.RepositoryError)
    | StockDataInvalid(errors: seq<StockResponse.FieldError>)

  /** `StockValuesData.model_validate` of the market-data document; only a mapping can validate. */
  function StockValuesOf(daily: Json, toFloat: StockResponse.FloatParser): (r: Result<StockResponse.StockValuesData, seq<StockResponse.FieldError>>)
    ensures !daily.JObject? ==> r == Err([StockResponse.ModelType])
    ensures daily.JObject? ==> r == StockResponse.ValidateStockValues(daily.fields, toFloat)
  {
    match daily
    case JObject(fs) => StockResponse.ValidateStockValues(fs, toFloat)
    case _ => Err([StockResponse.ModelType])
  }

  /** The dictionary handed to `StockData.model_validate`: purchase fields left out. */
  function MergeInput(fields: map<string, Json>, values: StockResponse.StockValuesData,
                      performance: StockResponse.PerformanceData,
                      competitors: seq<StockResponse.CompetitorData>, companyName: string): (m: StockResponse.StockDataInput)
    ensures m.purchasedAmount == None && m.purchasedStatus == None
    ensures m.stockValues == values && m.performanceData == performance
            && m.competitors == Some(competitors) && m.companyName == companyName
  {
    StockResponse.StockDataInput(
      DictGet(fields, "status"), None, None, DictGet(fields, "from"), DictGet(fields, "symbol"),
      companyName, values, performance, Some(competitors))
  }

  /**
   * What `get_stock_by_symbol` gives for a market-data answer `daily` and
   * the page the scraper's fetch gives (`fetched`, read by all three scraper
   * calls): the first step that fails decides the error.
   */
  function Compose(daily: Result<Json, ApiError>, fetched: RetryResult<MarketWatchPage.StockPage, Fault>,
                   toFloat: StockResponse.FloatParser): (r: Result<StockResponse.StockData, CompositeError>)
    ensures daily.Err? ==> r == Err(MarketDataFailed(daily.error))
    ensures r.Ok? ==> daily.Ok? && StockValuesOf(daily.value, toFloat).Ok? && fetched.Returned?
  {
    if daily.Err? then Err(MarketDataFailed(daily.error))
    else
      match StockValuesOf(daily.value, toFloat)
      case Err(es) => Err(StockValuesInvalid(es))
      case Ok(values) => ComposeScraped(daily.value.fields, values, fetched, toFloat)
  }

  /** The part of `Compose` after the stock values validated: the three page reads and the merge. */
  function ComposeScraped(fields: map<string, Json>, values: StockResponse.StockValuesData,
                          fetched: RetryResult<MarketWatchPage.StockPage, Fault>,
                          toFloat: StockResponse.FloatParser): (r: Result<StockResponse.StockData, CompositeError>)
    ensures !fetched.Returned? ==> r.Err? && r.error.ScraperFailed?
    ensures r.Ok? ==> && fetched.Returned?
                      && GetPerformance(fetched.value, toFloat).Ok?
                      && MarketWatchPage.GetCompetitors(fetched.value).Ok?
                      && MarketWatchPage.GetCompanyName(fetched.value).Ok?
  {
    match fetched
    case Raised(f) => Err(ScraperFailed(MarketWatchRepository.FetchFailed(f)))
    case RetryError => Err(ScraperFailed(MarketWatchRepository.RetriesExhausted))
    case Returned(page) =>
      match GetPerformance(page, toFloat)
      case Err(e) => Err(ScraperFailed(MarketWatchRepository.ScrapeFailed(e)))
      case Ok(performance) =>
        match MarketWatchPage.GetCompetitors(page)
        case Err(e) => Err(ScraperFailed(MarketWatchRepository.ScrapeFailed(e)))
        case Ok(competitors) =>
          match MarketWatchPage.GetCompanyName(page)
          case Err(e) => Err(ScraperFailed(MarketWatchRepository.ScrapeFailed(e)))
          case Ok(name) =>
            match StockResponse.ValidateStockData(MergeInput(fields, values, performance, competitors, name))
            case Err(es) => Err(StockDataInvalid(es))
            case Ok(data) => Ok(data)
  }

  /** A market-data error is the result, whatever the scraper would have given. */
  lemma MarketDataFirst(daily: Result<Json, ApiError>, fetched: RetryResult<MarketWatchPage.StockPage, Fault>,
                        toFloat: StockResponse.FloatParser)
    requires daily.Err?
    ensures Compose(daily, fetched, toFloat) == Err(MarketDataFailed(daily.error))
  {
  }

  /**
   * A merged record takes its status from the document's "status", its
   * request date from "from" and its company code from "symbol"; the
   * stock values from the document's prices; the company name, performance
   * and competitors from the one fetched page; the purchase fields stay
   * `None`.
   */
  lemma ComposedFields(daily: Result<Json, ApiError>, fetched: RetryResult<MarketWatchPage.StockPage, Fault>,
                       toFloat: StockResponse.FloatParser)
    requires Compose(daily, fetched, toFloat).Ok?
    ensures var data := Compose(daily, fetched, toFloat).value;
      && daily.Ok? && daily.value.JObject? && fetched.Returned?
      && JString(data.status) == DictGet(daily.value.fields, "status")
      && JString(Dates.IsoFormat(data.requestData)) == DictGet(daily.value.fields, "from")
      && JString(data.companyCode) == DictGet(daily.value.fields, "symbol")
      && Ok(data.stockValues) == StockResponse.ValidateStockValues(daily.value.fields, toFloat)
      && Ok(data.performanceData) == GetPerformance(fetched.value, toFloat)
      && Ok(data.competitors) == MarketWatchPage.GetCompetitors(fetched.value)
      && Ok(data.companyName) == MarketWatchPage.GetCompanyName(fetched.value)
      && data.purchasedAmount.None? && data.purchasedStatus.None?
  {
    var values := StockValuesOf(daily.value, toFloat).value;
    var page := fetched.value;
    var performance := GetPerformance(page, toFloat).value;
    var competitors := MarketWatchPage.GetCompetitors(page).value;
    var name := MarketWatchPage.GetCompanyName(page).value;
    var input := MergeInput(daily.value.fields, values, performance, competitors, name);
    assert Compose(daily, fetched, toFloat) == Ok(StockResponse.ValidateStockData(input).value);
  }

  /** A document without "status" (the `.get` gives `None`) cannot be merged. */
  lemma MergeNeedsStatus(daily: Result<Json, ApiError>, fetched: RetryResult<MarketWatchPage.StockPage, Fault>,
                         toFloat: StockResponse.FloatParser)
    requires daily.Ok? && daily.value.JObject? && "status" !in daily.value.fields
    ensures Compose(daily, fetched, toFloat).Err?
  {
    var fs := daily.value.fields;
    if StockValuesOf(daily.value, toFloat).Ok? && fetched.Returned? {
      var page := fetched.value;
      var perf, comps, name := GetPerformance(page, toFloat), MarketWatchPage.GetCompetitors(page),
                               MarketWatchPage.GetCompanyName(page);
      if perf.Ok? && comps.Ok? && name.Ok? {
        var input := MergeInput(fs, StockValuesOf(daily.value, toFloat).value, perf.value, comps.value, name.value);
        StockResponse.StockDataNeedsStatus(input);
      }
    }
  }

  // ---------------------------------------------------------------------
  // State

  class ScrapingStockRepository {
    const settings: AppConfig.Settings
    const memo: LruCache.Cache<(ScrapingStockRepository, string), MarketWatchPage.StockPage>
    const browser: RemoteBrowser

    /** The memo table is `lru_cache`'s bare-decorator table, bounded by 128 results. */
    ghost predicate Valid()
      reads memo
    {
      memo.Valid() && memo.maxSize == LruCache.DefaultMaxSize
    }

    constructor (settings: AppConfig.Settings,
                 memo: LruCache.Cache<(ScrapingStockRepository, string), MarketWatchPage.StockPage>,
                 browser: RemoteBrowser)
      requires memo.Valid() && memo.maxSize == LruCache.DefaultMaxSize
      ensures Valid()
      ensures this.settings == settings && this.memo == memo && this.browser == browser
    {
      this.settings := settings;
      this.memo := memo;
      this.browser := browser;
    }

    /** How an attempt on the k-th session requested ends. */
    function SessionOutcome(k: nat): Outcome<LoadedPage, Fault> {
      AttemptOutcome(browser.sessions(k))
    }

    /** How attempt `j` of a fetch whose first session is number `s0` ends. */
    function Outcomes(s0: nat): (f: nat -> Outcome<LoadedPage, Fault>)
      ensures forall j :: f(j) == SessionOutcome(s0 + j)
    {
      (j: nat) => SessionOutcome(s0 + j)
    }

    /** What `_get_stock_page_html(symbol)` gives with this memo table and this next session number. */
    function Fetched(entries: seq<((ScrapingStockRepository, string), MarketWatchPage.StockPage)>,
                     started: nat, symbol: string): (r: RetryResult<MarketWatchPage.StockPage, Fault>)
      ensures LruCache.Lookup(entries, (this, symbol)).Some? ==>
        r == Returned(LruCache.Lookup(entries, (this, symbol)).value)
      ensures LruCache.Lookup(entries, (this, symbol)).None? ==>
        r == MarketWatchRepository.ParsedPage(Retry(Outcomes(started), MaxAttempts).result)
    {
      match LruCache.Lookup(entries, (this, symbol))
      case Some(p) => Returned(p)
      case None => MarketWatchRepository.ParsedPage(Retry(Outcomes(started), MaxAttempts).result)
    }

    /** The calls an attempt on session `k` makes. */
    function SessionSteps(symbol: string): (f: nat -> seq<DriverCall>)
      ensures forall k :: f(k) == AttemptCalls(settings, browser.userAgents(k), symbol, browser.sessions(k))
    {
      (k: nat) => AttemptCalls(settings, browser.userAgents(k), symbol, browser.sessions(k))
    }

    /** The calls of `count` attempts from session `s0` on. */
    function AttemptsTrace(s0: nat, count: nat, symbol: string): seq<DriverCall> {
      MarketWatchRepository.ConcatFrom(SessionSteps(symbol), s0, count)
    }

    /** `steps(k)` is the calls of an attempt on session `k`. */
    ghost predicate StepsDescribe(symbol: string, steps: nat -> seq<DriverCall>) {
      forall k {:trigger AttemptCalls(settings, browser.userAgents(k), symbol, browser.sessions(k))} ::
        steps(k) == AttemptCalls(settings, browser.userAgents(k), symbol, browser.sessions(k))
    }

    /** However many attempts a fetch makes, it quits every session it creates. */
    lemma FetchQuitsEverySession(s0: nat, count: nat, symbol: string)
      ensures Occurrences(AttemptsTrace(s0, count, symbol), Quit) == Starts(AttemptsTrace(s0, count, symbol))
    {
      var steps := SessionSteps(symbol);
      forall k | s0 <= k < s0 + count ensures Occurrences(steps(k), Quit) == Starts(steps(k)) {
        AttemptQuitsOnEveryExit(settings, browser.userAgents(k), symbol, browser.sessions(k));
      }
      MarketWatchRepository.ConcatFromBalanced(steps, s0, count);
    }

    /** Dismisses the banner as `_close_subscriber_banner` does, recording the click. */
    method CloseBanner(b: Banner) returns (r: Result<bool, Fault>)
      modifies browser
      ensures r == CloseSubscriberBanner(b)
      ensures browser.calls == old(browser.calls) + (if r == Ok(true) then [ClickClose] else [])
      ensures browser.started == old(browser.started)
    {
      r := CloseSubscriberBanner(b);
      if r == Ok(true) {
        browser.Call(ClickClose);
      }
    }

    /** The body of the `try`: CAPTCHA check and banner on the loaded stock page. */
    method ReadStockPage(page: Option<LoadedPage>) returns (o: Outcome<LoadedPage, Fault>)
      modifies browser
      ensures o == PageOutcome(page)
      ensures browser.calls == old(browser.calls) + BannerCalls(page) && browser.started == old(browser.started)
    {
      if page.None? {
        return Failure(NavigationError);
      }
      if IsCaptchaOpen(page.value.bodyScriptSrcs) {
        return BotDetected;
      }
      var banner := CloseBanner(page.value.banner);
      if banner.Err? {
        return Failure(banner.error);
      }
      o := Success(page.value);
    }

    /** One attempt of `_get_stock_page_html`: create the session, then `try` the page and `finally` quit. */
    method FetchAttempt(symbol: string) returns (o: Outcome<LoadedPage, Fault>)
      modifies browser
      ensures browser.started == old(browser.started) + 1
      ensures o == AttemptOutcome(browser.sessions(old(browser.started)))
      ensures browser.calls == old(browser.calls)
        + AttemptCalls(settings, browser.userAgents(old(browser.started)), symbol, browser.sessions(old(browser.started)))
    {
      var userAgent := browser.userAgents(browser.started);
      var options := ChromeOptionsFor(settings.seleniumHeadlessMode, userAgent);
      ghost var calls0 := browser.calls;
      var s := browser.NewSession();
      if s.SessionFailed? {
        return Failure(SessionError);
      }
      browser.Call(Start(options));
      var url := MarketWatchRepository.StockPageUrl(settings.marketwatchBaseUrl, symbol);
      browser.Call(Get(url));
      o := ReadStockPage(s.stockPage);
      browser.Call(Quit);
      assert browser.calls == calls0 + ([Start(options), Get(url)] + BannerCalls(s.stockPage) + [Quit]);
    }

    method NextAttempt(symbol: string, ghost s0: nat, ghost n: nat,
                       ghost calls0: seq<DriverCall>, ghost steps: nat -> seq<DriverCall>)
      returns (o: Outcome<LoadedPage, Fault>)
      requires StepsDescribe(symbol, steps)
      requires browser.started == s0 + n
      requires browser.calls == calls0 + MarketWatchRepository.ConcatFrom(steps, s0, n)
      modifies browser
      ensures browser.started == s0 + n + 1
      ensures o == SessionOutcome(s0 + n)
      ensures browser.calls == calls0 + MarketWatchRepository.ConcatFrom(steps, s0, n + 1)
    {
      ghost var before := browser.calls;
      o := FetchAttempt(symbol);
      assert browser.calls == before + steps(s0 + n);
      MarketWatchRepository.AppendAssociates(calls0, MarketWatchRepository.ConcatFrom(steps, s0, n), steps(s0 + n));
    }

    method AttemptFrom(symbol: string, ghost s0: nat, n: nat,
                       ghost calls0: seq<DriverCall>, ghost steps: nat -> seq<DriverCall>)
      returns (r: RetryResult<LoadedPage, Fault>)
      requires n < MaxAttempts
      requires StepsDescribe(symbol, steps)
      requires browser.started == s0 + n
      requires browser.calls == calls0 + MarketWatchRepository.ConcatFrom(steps, s0, n)
      modifies browser
      ensures var run := RunFrom(Outcomes(s0), MaxAttempts, n);
        && r == run.result
        && browser.started == s0 + run.attempts
        && browser.calls == calls0 + MarketWatchRepository.ConcatFrom(steps, s0, run.attempts)
      decreases MaxAttempts - n
    {
      ghost var outcomes := Outcomes(s0);
      var o := NextAttempt(symbol, s0, n, calls0, steps);
      assert o == outcomes(n);
      if o.BotDetected? && n + 1 < MaxAttempts {
        RunFromContinues(outcomes, MaxAttempts, n);
        r := AttemptFrom(symbol, s0, n + 1, calls0, steps);
      } else {
        RunFromStops(outcomes, MaxAttempts, n);
        r := Ending(o);
      }
    }

    /** The whole retried fetch. */
    method FetchWithRetry(symbol: string) returns (r: RetryResult<LoadedPage, Fault>)
      modifies browser
      ensures var run := Retry(Outcomes(old(browser.started)), MaxAttempts);
        && r == run.result
        && browser.started == old(browser.started) + run.attempts
        && browser.calls == old(browser.calls) + AttemptsTrace(old(browser.started), run.attempts, symbol)
    {
      ghost var steps := SessionSteps(symbol);
      assert browser.calls == browser.calls + MarketWatchRepository.ConcatFrom(steps, browser.started, 0);
      r := AttemptFrom(symbol, browser.started, 0, browser.calls, steps);
    }

    /**
     * What `_get_stock_page_html` leaves behind for `symbol`. A returned page
     * is memoised. A hit makes no browser call and makes its entry the most
     * recent. A miss runs the retried fetch, whose calls are recorded, and
     * stores a returned page; a raised fetch stores nothing.
     */
    twostate predicate FetchEffect(symbol: string)
      reads memo, browser
    {
      var fetched := Fetched(old(memo.entries), old(browser.started), symbol);
      && (fetched.Returned? ==> LruCache.Lookup(memo.entries, (this, symbol)) == Some(fetched.value))
      && (LruCache.Lookup(old(memo.entries), (this, symbol)).Some? ==>
            && browser.started == old(browser.started) && browser.calls == old(browser.calls)
            && memo.entries == LruCache.Touch(old(memo.entries), (this, symbol)))
      && (LruCache.Lookup(old(memo.entries), (this, symbol)).None? ==>
            var run := Retry(Outcomes(old(browser.started)), MaxAttempts);
            && browser.started == old(browser.started) + run.attempts
            && browser.calls == old(browser.calls) + AttemptsTrace(old(browser.started), run.attempts, symbol)
            && memo.entries == (if fetched.Returned? then LruCache.Insert(old(memo.entries), (this, symbol), fetched.value, memo.maxSize)
                                else old(memo.entries)))
    }

    /**
     * `_get_stock_page_html`: the memo table first; on a miss, the retried
     * fetch; a returned page is stored, a raised call stores nothing.
     */
    method GetStockPageHtml(symbol: string) returns (r: RetryResult<MarketWatchPage.StockPage, Fault>)
      requires Valid()
      modifies memo, browser
      ensures Valid()
      ensures r == Fetched(old(memo.entries), old(browser.started), symbol)
      ensures FetchEffect(symbol)
    {
      var key := (this, symbol);
      var cached := memo.Get(key);
      if cached.Some? {
        LruCache.TouchKeepsContents(old(memo.entries), key, memo.maxSize);
        return Returned(cached.value);
      }
      var fetched := FetchWithRetry(symbol);
      r := MarketWatchRepository.ParsedPage(fetched);
      if r.Returned? {
        memo.Put(key, r.value);
      }
    }

    /** `get_stock_performance_by_symbol`: the performance record of the fetched page. */
    method GetStockPerformanceBySymbol(symbol: string, toFloat: StockResponse.FloatParser)
      returns (r: Result<StockResponse.PerformanceData, MarketWatchRepository.RepositoryError>)
      requires Valid()
      modifies memo, browser
      ensures Valid()
      ensures r == MarketWatchRepository.ReadFetched(Fetched(old(memo.entries), old(browser.started), symbol),
                                                     (p: MarketWatchPage.StockPage) => GetPerformance(p, toFloat))
      ensures FetchEffect(symbol)
    {
      var page := GetStockPageHtml(symbol);
      r := MarketWatchRepository.ReadFetched(page, (p: MarketWatchPage.StockPage) => GetPerformance(p, toFloat));
    }

    /** `get_stock_competitors_by_symbol`: one record per competitor row of the fetched page. */
    method GetStockCompetitorsBySymbol(symbol: string)
      returns (r: Result<seq<StockResponse.CompetitorData>, MarketWatchRepository.RepositoryError>)
      requires Valid()
      modifies memo, browser
      ensures Valid()
      ensures r == MarketWatchRepository.ReadFetched(Fetched(old(memo.entries), old(browser.started), symbol),
                                                     MarketWatchPage.GetCompetitors)
      ensures FetchEffect(symbol)
    {
      var page := GetStockPageHtml(symbol);
      r := MarketWatchRepository.ReadFetched(page, MarketWatchPage.GetCompetitors);
    }

    /** `get_company_name_by_symbol`: the company name of the fetched page. */
    method GetCompanyNameBySymbol(symbol: string)
      returns (r: Result<string, MarketWatchRepository.RepositoryError>)
      requires Valid()
      modifies memo, browser
      ensures Valid()
      ensures r == MarketWatchRepository.ReadFetched(Fetched(old(memo.entries), old(browser.started), symbol),
                                                     MarketWatchPage.GetCompanyName)
      ensures FetchEffect(symbol)
    {
      var page := GetStockPageHtml(symbol);
      r := MarketWatchRepository.ReadFetched(page, MarketWatchPage.GetCompanyName);
    }
  }

  /** This revision's ledger: the same recording of a purchase; it has no stock data of its own. */
  class LegacyPurchasesRepository {
    const session: PurchasesRepository.DbSession

    constructor (session: PurchasesRepository.DbSession)
      ensures this.session == session
    {
      this.session := session;
    }

    /** `purchase_stock`: one row with the purchase's symbol and amount, then one commit. */
    method PurchaseStock(purchase: PurchasesRepository.PurchaseStockAmount) returns (r: Result<(), PurchasesRepository.DbError>)
      modifies session
      ensures session.commits == old(session.commits) + 1
      ensures r.Ok? <==> !session.commitFails(old(session.commits))
      ensures r.Ok? ==> session.table == old(session.table) + old(session.pending) + [PurchasesRepository.RowOf(purchase)]
                        && session.pending == []
      ensures r.Err? ==> session.table == old(session.table)
                         && session.pending == old(session.pending) + [PurchasesRepository.RowOf(purchase)]
    {
      session.Add(PurchasesRepository.RowOf(purchase));
      r := session.Commit();
    }

    /** `get_stock_by_symbol`: always `None`. */
    method GetStockBySymbol(symbol: string, date: Dates.Date) returns (r: Option<StockResponse.StockData>)
      ensures r == None
    {
      r := None;
    }
  }

  class CompositeStockRepository {
    const settings: AppConfig.Settings
    const scraper: ScrapingStockRepository
    const purchases: LegacyPurchasesRepository

    constructor (settings: AppConfig.Settings, scraper: ScrapingStockRepository, purchases: LegacyPurchasesRepository)
      requires scraper.settings == settings
      ensures this.settings == settings && this.scraper == scraper && this.purchases == purchases
    {
      this.settings := settings;
      this.scraper := scraper;
      this.purchases := purchases;
    }

    /**
     * `get_stock_by_symbol`: the market data first, then its stock values,
     * then performance, competitors and company name from the scraper (the
     * last two served by the memo table the first one filled), merged and
     * validated. A market-data or stock-values error leaves the scraper
     * untouched; once scraping starts, the scraper's state is that of one
     * fetch of the symbol, since the two later reads hit the entry the
     * first one left most recent.
     */
    method GetStockBySymbol(symbol: string, date: Dates.Date, get: string -> OpenCloseStockRepository.HttpOutcome,
                            toFloat: StockResponse.FloatParser)
      returns (r: Result<StockResponse.StockData, CompositeError>)
      requires scraper.Valid()
      modifies scraper.memo, scraper.browser
      ensures scraper.Valid()
      ensures var daily := ApiGetDailyOpenClose(settings, symbol, date, get);
        r == Compose(daily, scraper.Fetched(old(scraper.memo.entries), old(scraper.browser.started), symbol), toFloat)
      ensures var daily := ApiGetDailyOpenClose(settings, symbol, date, get);
        (daily.Err? || StockValuesOf(daily.value, toFloat).Err?) ==>
          && scraper.memo.entries == old(scraper.memo.entries)
          && scraper.browser.started == old(scraper.browser.started)
          && scraper.browser.calls == old(scraper.browser.calls)
      ensures var daily := ApiGetDailyOpenClose(settings, symbol, date, get);
        (daily.Ok? && StockValuesOf(daily.value, toFloat).Ok?) ==> scraper.FetchEffect(symbol)
    {
      var daily := ApiGetDailyOpenClose(settings, symbol, date, get);
      if daily.Err? {
        return Err(MarketDataFailed(daily.error));
      }
      var values := StockValuesOf(daily.value, toFloat);
      if values.Err? {
        return Err(StockValuesInvalid(values.error));
      }
      r := ScrapeAndMerge(symbol, daily.value.fields, values.value, toFloat);
    }

    /**
     * The scraper's three reads of one symbol, then the merge with the market
     * data. The new scraper state is that of one fetch of the symbol.
     */
    method ScrapeAndMerge(symbol: string, fields: map<string, Json>, values: StockResponse.StockValuesData,
                          toFloat: StockResponse.FloatParser)
      returns (r: Result<StockResponse.StockData, CompositeError>)
      requires scraper.Valid()
      modifies scraper.memo, scraper.browser
      ensures scraper.Valid()
      ensures r == ComposeScraped(fields, values,
                                  scraper.Fetched(old(scraper.memo.entries), old(scraper.browser.started), symbol), toFloat)
      ensures scraper.FetchEffect(symbol)
    {
      ghost var fetched := scraper.Fetched(scraper.memo.entries, scraper.browser.started, symbol);
      var performance := scraper.GetStockPerformanceBySymbol(symbol, toFloat);
      if performance.Err? {
        return Err(ScraperFailed(performance.error));
      }
      ghost var page := fetched.value;
      ghost var entries1, started1, calls1 := scraper.memo.entries, scraper.browser.started, scraper.browser.calls;
      assert entries1[|entries1| - 1].0 == (scraper, symbol);
      r := MergeCachedPage(symbol, fields, values, performance.value, page, toFloat);
      assert scraper.memo.entries == entries1 && scraper.browser.started == started1 && scraper.browser.calls == calls1;
    }

    /**
     * The second and third reads, both hits on the page the first read left
     * most recent, so the scraper's state stays as it is; then the merge.
     */
    method MergeCachedPage(symbol: string, fields: map<string, Json>, values: StockResponse.StockValuesData,
                           performance: StockResponse.PerformanceData, ghost page: MarketWatchPage.StockPage,
                           toFloat: StockResponse.FloatParser)
      returns (r: Result<StockResponse.StockData, CompositeError>)
      requires scraper.Valid()
      requires GetPerformance(page, toFloat) == Ok(performance)
      requires LruCache.Lookup(scraper.memo.entries, (scraper, symbol)) == Some(page)
      requires |scraper.memo.entries| > 0 && scraper.memo.entries[|scraper.memo.entries| - 1].0 == (scraper, symbol)
      modifies scraper.memo, scraper.browser
      ensures scraper.Valid()
      ensures scraper.memo.entries == old(scraper.memo.entries)
      ensures scraper.browser.started == old(scraper.browser.started) && scraper.browser.calls == old(scraper.browser.calls)
      ensures r == ComposeScraped(fields, values, Returned(page), toFloat)
    {
      LruCache.TouchLast(scraper.memo.entries, (scraper, symbol));
      assert scraper.Fetched(scraper.memo.entries, scraper.browser.started, symbol) == Returned(page);
      var competitors := scraper.GetStockCompetitorsBySymbol(symbol);
      if competitors.Err? {
        return Err(ScraperFailed(competitors.error));
      }
      var name := scraper.GetCompanyNameBySymbol(symbol);
      if name.Err? {
        return Err(ScraperFailed(name.error));
      }
      assert competitors.value == MarketWatchPage.GetCompetitors(page).value;
      assert name.value == MarketWatchPage.GetCompanyName(page).value;
      var merged := StockResponse.ValidateStockData(
        MergeInput(fields, values, performance, competitors.value, name.value));
      if merged.Err? {
        return Err(StockDataInvalid(merged.error));
      }
      r := Ok(merged.value);
    }

    /** `purchase_stock`: handed to the ledger. */
    method PurchaseStock(purchase: PurchasesRepository.PurchaseStockAmount) returns (r: Result<(), PurchasesRepository.DbError>)
      modifies purchases.session
      ensures purchases.session.commits == old(purchases.session.commits) + 1
      ensures r.Ok? <==> !purchases.session.commitFails(old(purchases.session.commits))
      ensures r.Ok? ==> purchases.session.table == old(purchases.session.table) + old(purchases.session.pending)
                                                   + [PurchasesRepository.RowOf(purchase)]
      ensures r.Ok? ==> purchases.session.pending == []
      ensures r.Err? ==> r.error == PurchasesRepository.CommitFailed
                         && purchases.session.table == old(purchases.session.table)
                         && purchases.session.pending == old(purchases.session.pending)
                                                         + [PurchasesRepository.RowOf(purchase)]
    {
      r := purchases.PurchaseStock(purchase);
    }
  }
}
