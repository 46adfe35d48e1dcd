# stocks-api: a verified model of the data layer

stocks-api is a web service that builds one record per stock symbol and
day. It merges three sources:

- the day's open/close prices from the Polygon market-data API;
- the company name, performance table and competitor list, scraped from
  the symbol's MarketWatch page through a remote Selenium browser;
- the amounts the user has bought of the symbol, kept in a `purchases`
  database table.

This project models that data layer in Dafny and proves what it promises.
Two revisions are modelled.

The current revision (`app/`):

- `MarketWatchRepository`: the scraper. A class-level cookie jar primes
  each browser session. A fetch makes up to 10 attempts on bot detection.
  Its result is memoised in one class-wide table keyed by (repository,
  symbol).
- `MarketWatchPage`: reading the fetched page.
- `CurrencyUtils`: the market-cap parser the competitor list uses.
- `OpenCloseStockRepository`: the market-data client.
- `PurchasesRepository`: the purchase ledger.
- `StockResponse`: the response records and their validation.

The older revision (`stocks_api/repository/stock.py`) is
`LegacyStockRepository`. It holds:

- a scraper with 5 attempts, no cookie jar and a `finally` that quits
  every session;
- a client that hands back the raw document;
- a ledger;
- the composite that merges the three sources.

How the model works:

- **Python values.**
  - A decoded JSON document is a `Json` value (module `JsonValues`).
  - A `datetime.date` is a `Dates.Date`, with its ISO text form.
  - A `Decimal` is a coefficient and an exponent.
  - pydantic validation returns a `Result` carrying the list of failing
    fields, in field order.
  - An `AliasChoices` lookup is `JsonValues.FirstAlias`.
- **Parameters.** The environment supplies several things the model does
  not define:
  - pydantic's text-to-float coercion, as `StockResponse.FloatParser`;
  - the HTTP client, as a function from URI to `HttpOutcome`;
  - how the n-th browser session behaves, and the random user agent drawn
    for it (`WebDriver.RemoteBrowser.sessions` and `.userAgents`);
  - whether the n-th database commit raises (`PurchasesRepository.DbSession.commitFails`).
- **State.** The browser records every driver call it receives. Proofs
  about sessions being started and quit, cookies and clicks are stated
  over that trace.
- **Stateful entities are classes.** These are the cookie jar, the
  `lru_cache` memo table (`LruCache.Cache`, bound 128), the browser, the
  database session and the repositories. Their methods are proved
  against specification functions of the old state: `Fetched`,
  `AttemptCalls`, `RetryPolicy.Retry`, `SqlSum`.
- **Retry policy.** tenacity's policy is `RetryPolicy.RunFrom`/`Retry`.
  It retries only a bot detection, the first attempt always happens, and
  a budget spent on bot detections ends in `RetryError`.

## Model

| member | source | states |
|---|---|---|
| AppConfig.DefaultSettings | app/app_config.py:8-13 | with only the API key given, the base URLs, the webdriver address and headless mode take the class defaults |
| CurrencyUtils.StripIsSlice | app/common/currency_utils.py:18 | what `strip()` keeps is a slice of the input with only whitespace around it |
| CurrencyUtils.Strip | app/common/currency_utils.py:18 | `str.strip()`: the result is empty or starts and ends with a non-whitespace character |
| CurrencyUtils.StripRemovesPadding | app/common/currency_utils.py:18 | whitespace added on either side of a text is removed again by `strip()` |
| CurrencyUtils.EmbeddedStrip | app/common/currency_utils.py:18 | a text embedded in whitespace strips exactly as the embedded text does |
| CurrencyUtils.StripBetween | app/common/currency_utils.py:18 | a text with a non-space strips to what lies between its leading and trailing whitespace |
| CurrencyUtils.StripKeepsTrimmed | app/common/currency_utils.py:18 | a text without whitespace at either end is unchanged by `strip()` |
| CurrencyUtils.MatchFromNone | app/common/currency_utils.py:17-21 | with no value character at or before the tried position, the backtracking search fails |
| CurrencyUtils.MatchFromLastDot | app/common/currency_utils.py:17-18 | in a text without digits, backtracking from at or past the last dot captures the text before it and the dot; the suffix is the next character when it is T, M, B or K, and empty otherwise |
| CurrencyUtils.MatchFrom | app/common/currency_utils.py:17-18 | a match tried with group one at most `j` long has a non-empty value run, and its three groups, in order, are a prefix of the text |
| CurrencyUtils.Match | app/common/currency_utils.py:17-23 | no match exactly when the text has neither digit nor dot; with a digit, the groups the first digit fixes; with dots only, the text before the last dot and the dot, with the next character as suffix when it is T, M, B or K and an empty suffix otherwise |
| CurrencyUtils.DecimalOf | app/common/currency_utils.py:34 | `Decimal(value_str)` is defined exactly when the run has a digit and at most one dot; the exponent is 0 without a dot and minus the count of characters after it otherwise |
| CurrencyUtils.DecimalOfValue | app/common/currency_utils.py:34 | a defined `Decimal(value_str)` has as coefficient the whole part's digits shifted by the fraction's length plus the fraction's digits: the digit string read with the dot removed |
| CurrencyUtils.NoDotAfterMeansOne | app/common/currency_utils.py:34 | a run without a dot counts none; with a dot, it has at most one exactly when no dot follows the first |
| CurrencyUtils.Multiplier | app/common/currency_utils.py:25-33 | T, B, M and K map to 10^12, 10^9, 10^6 and 10^3; the empty suffix and any other key map to 1 |
| CurrencyUtils.ConvertCurrencyString | app/common/currency_utils.py:5-35 | "Invalid currency format" exactly when the stripped text has neither digit nor dot; a success needs a digit |
| CurrencyUtils.ValueRunHasDigit | app/common/currency_utils.py:17-23 | a digit in the captured value run is a digit of the text |
| CurrencyUtils.ValueRunIsValueChars | app/common/currency_utils.py:17 | the captured value run holds only digits and dots |
| CurrencyUtils.StripPaddingIgnored | app/common/currency_utils.py:18 | whitespace padding on either side leaves the conversion unchanged |
| CurrencyUtils.MatchOfParts | app/common/currency_utils.py:17-23 | a digit-free prefix, a digit-led run of digits and dots and a rest not continuing the run split into exactly those groups, the suffix being the rest's first character when it is T, M, B or K |
| CurrencyUtils.TrailingTextIgnored | app/common/currency_utils.py:17-18 | characters after the suffix are ignored, not rejected |
| CurrencyUtils.SuffixUpperIsIdentity | app/common/currency_utils.py:33 | `upper()` never changes a captured suffix |
| CurrencyUtils.LowercaseSuffixIgnored | app/common/currency_utils.py:17 | a lower-case letter after the run ends the match with an empty suffix, so the multiplier is 1 |
| CurrencyUtils.ConvertWithDigit | app/common/currency_utils.py:17-35 | with a digit present, the currency is the text before the first digit and the amount is the run's value times the multiplier; it fails exactly when the run has more than one dot |
| CurrencyUtils.DotWithoutDigitFailsConversion | app/common/currency_utils.py:17-34 | with a dot but no digit the pattern still matches, on the last dot, and the Decimal conversion fails |
| CurrencyUtils.ConvertFollowsMatch | app/common/currency_utils.py:18-35 | the conversion depends only on the captured groups |
| CurrencyUtils.ConvertGroups | app/common/currency_utils.py:23-35 | the conversion of the captured groups can only fail in `Decimal(value_str)` |
| CurrencyUtils.ExampleTrillion | app/common/currency_utils.py:17-35 | "$3.16T" converts to currency "$" and 3160000000000 |
| CurrencyUtils.ExampleMillion | app/common/currency_utils.py:17-35 | "$123.4M" converts to currency "$" and 123400000 |
| CurrencyUtils.SuffixedCellMatch | app/common/currency_utils.py:17-18 | a trimmed cell of a digit-free currency, a digit-led value run and one of T, M, B, K matches as exactly those three groups |
| CurrencyUtils.ExampleLowercase | app/common/currency_utils.py:17-35 | "2k" is 2, with an empty currency |
| CurrencyUtils.ExampleLoneDot | app/common/currency_utils.py:17-34 | "." matches the pattern and then fails as a decimal |
| CurrencyUtils.ExampleNoDigits | app/common/currency_utils.py:17-21 | " N/A " is an invalid currency format |
| Dates.IsoRoundTrip | app/models/dto/stock_response.py:35 | reading back the ISO text of a date gives the same date |
| Dates.IsoFormat | app/repository/open_close_stock_repository.py:28 | `str(date)`, the ISO text of a date, is always 10 characters long |
| Dates.ParseIsoDate | app/models/dto/stock_response.py:35 | a text that reads as a date has the `YYYY-MM-DD` shape |
| Dates.DigitsValueAppend | app/common/currency_utils.py:34 | appending digits multiplies the value of the leading ones by ten per appended digit and adds the value of the appended ones |
| Dates.IsoCanonical | app/models/dto/stock_response.py:35 | a text the parser accepts is exactly the ISO text of the date it yields |
| JsonValues.DictGet | stocks_api/repository/stock.py:245-247 | `dict.get` gives the stored value, or null for a missing key |
| JsonValues.FirstAlias | app/models/dto/daily_open_close_stock.py:6 | `AliasChoices` takes the value under the first alias present; none when no alias is a key |
| JsonValues.FirstAliasReadsOnlyAliases | app/models/dto/daily_open_close_stock.py:6 | two documents that agree on the alias keys give the same lookup |
| LruCache.Lookup | app/repository/marketwatch_repository.py:178 | the stored result for the key, none exactly when no entry has that key |
| LruCache.Touch | app/repository/marketwatch_repository.py:178 | a hit keeps the table size and makes the key's entry the most recent |
| LruCache.Insert | app/repository/marketwatch_repository.py:178 | a key already stored leaves the table alone; a new key becomes the most recent entry |
| LruCache.LookupIsMembership | app/repository/marketwatch_repository.py:178 | with distinct keys, a lookup finds exactly the stored pairs |
| LruCache.SameEntriesSameLookups | app/repository/marketwatch_repository.py:178 | two tables with the same entries answer every lookup alike |
| LruCache.TouchKeepsContents | app/repository/marketwatch_repository.py:178 | a hit keeps the table well formed, its entries and every lookup |
| LruCache.TouchPermutes | app/repository/marketwatch_repository.py:178 | a hit only reorders the entries |
| LruCache.IndexOfLast | app/repository/marketwatch_repository.py:178 | with distinct keys, the most recent entry's key is found at the last position |
| LruCache.TouchLast | app/repository/marketwatch_repository.py:178 | a hit on the most recent entry leaves the table exactly as it was |
| LruCache.InsertStores | app/repository/marketwatch_repository.py:178 | storing keeps the table within its bound (128 for the repositories, whose `Valid` fixes it) with distinct keys, finds the new result, and keeps every other result except the evicted one |
| LruCache.InsertKeepsOthers | app/repository/marketwatch_repository.py:178 | other keys' results survive a store, unless theirs is the evicted entry |
| LruCache.InsertEvicts | app/repository/marketwatch_repository.py:178 | a store into a full table drops exactly the least recent entry |
| LruCache.Cache.Get | app/repository/marketwatch_repository.py:178 | returns the stored result; a hit becomes most recent; a miss changes nothing |
| LruCache.Cache.Put | app/repository/marketwatch_repository.py:178 | stores a returned result as `Insert` does |
| MarketWatchPage.RemovePercent | app/repository/marketwatch_repository.py:240 | `replace("%", "")` leaves no percent sign and never lengthens the text |
| MarketWatchPage.RemovePercentAppend | app/repository/marketwatch_repository.py:240 | removing percent signs distributes over concatenation |
| MarketWatchPage.RemovePercentKeepsClean | app/repository/marketwatch_repository.py:240 | a text without percent signs is unchanged, so removal is idempotent |
| MarketWatchPage.RemovePercentKeepsOthers | app/repository/marketwatch_repository.py:240 | every other character's count is unchanged |
| MarketWatchPage.PerformanceMap | app/repository/marketwatch_repository.py:236-241 | the dict of label to value: it succeeds exactly when every row has a `td` and an `li`; its keys are the rows' labels |
| MarketWatchPage.PerformanceLastRowWins | app/repository/marketwatch_repository.py:239-241 | a label maps to the value of the last row carrying it |
| MarketWatchPage.GetPerformance | app/repository/marketwatch_repository.py:234-243 | a missing `div.performance` is an error; otherwise the dict is validated as `PerformanceData` |
| MarketWatchPage.PerformanceOfFiveRows | app/repository/marketwatch_repository.py:234-243 | the five labelled rows with convertible texts give the record of their values |
| MarketWatchPage.CompetitorOf | app/repository/marketwatch_repository.py:251-256 | a missing link or a row under three cells is an error; a record has the link text as name and the market cap parsed from the third cell |
| MarketWatchPage.Competitors | app/repository/marketwatch_repository.py:250-258 | one record per row, in row order; the first failing row fails the read |
| MarketWatchPage.GetCompetitors | app/repository/marketwatch_repository.py:245-260 | a missing `div.Competitors` or `tbody` is an error; otherwise it is the rows' records |
| MarketWatchPage.CompetitorTrillion | app/repository/marketwatch_repository.py:251-256 | a row reading "$3.16T" in its third cell gives a 3.16-trillion-dollar market cap with currency "$" |
| MarketWatchPage.GetCompanyName | app/repository/marketwatch_repository.py:262-265 | the text of `h1.company__name`, or an error when it is missing |
| MarketWatchRepository.IsCaptchaOpen | app/repository/marketwatch_repository.py:145-155 | true exactly when "captcha-delivery" occurs somewhere in the page source |
| MarketWatchRepository.StockPageUrl | app/repository/marketwatch_repository.py:206 | the stock address starts with the base address, ends with the symbol, and has "/investing/stock/" between them |
| MarketWatchRepository.CaptchaAnywhere | app/repository/marketwatch_repository.py:155 | the marker counts wherever it sits |
| MarketWatchRepository.ShortTextIsNoCaptcha | app/repository/marketwatch_repository.py:155 | a source shorter than the marker is never a CAPTCHA |
| MarketWatchRepository.CloseSubscriberBanner | app/repository/marketwatch_repository.py:128-143 | no banner: nothing happens; a shown banner without a close button raises NoSuchElement; a shown button is clicked |
| MarketWatchRepository.AttemptOutcomeCases | app/repository/marketwatch_repository.py:198-216 | a session that cannot be created fails; a base-address or stock-page load that raises is a navigation error; a CAPTCHA page is a bot detection; any other page is returned once its banner is dealt with, or fails with NoSuchElement |
| MarketWatchRepository.AttemptOutcome | app/repository/marketwatch_repository.py:198-216 | a returned page is the loaded stock page of a session whose base address loaded; a bot detection is a loaded page showing the CAPTCHA marker |
| MarketWatchRepository.AttemptCalls | app/repository/marketwatch_repository.py:198-216 | a session that cannot be created makes no call; any other attempt starts with the session's options and ends with its quit |
| MarketWatchRepository.AttemptClosesItsSession | app/repository/marketwatch_repository.py:198-201 | `with webdriver.Remote(...)` starts each session first and quits it exactly once, last, on every exit |
| MarketWatchRepository.CookiesBeforeStockPage | app/repository/marketwatch_repository.py:157-207 | right after the session starts, the base address is loaded and every jar cookie added, in jar order, then the stock page is requested |
| MarketWatchRepository.BotDetectionReadsNothing | app/repository/marketwatch_repository.py:209-215 | a bot-detected attempt neither clicks the banner away nor reads the cookies |
| MarketWatchRepository.LoadCallsNeutral | app/repository/marketwatch_repository.py:205-215 | the calls after the base address neither start nor quit a session |
| MarketWatchRepository.ParsedPage | app/repository/marketwatch_repository.py:214-216 | a returned page is handed on as its parsed tree; raised errors and RetryError pass through |
| MarketWatchRepository.ReadFetched | app/repository/marketwatch_repository.py:234-265 | the read applied to a returned page, or the fetch's own error when it raised or exhausted its retries |
| MarketWatchRepository.MarketWatchRepository.Fetched | app/repository/marketwatch_repository.py:178-186 | a memoised symbol gives its stored page; otherwise the result of the retried fetch from the next session on |
| MarketWatchRepository.MarketWatchRepository.AttemptsTraceStep | app/repository/marketwatch_repository.py:179-185 | the trace of n+1 attempts is the trace of n attempts followed by the next session's calls |
| MarketWatchRepository.MarketWatchRepository.FetchQuitsEverySession | app/repository/marketwatch_repository.py:178-201 | however many attempts a fetch makes, it quits as many sessions as it starts |
| MarketWatchRepository.MarketWatchRepository.SetCookies | app/repository/marketwatch_repository.py:157-167 | loads the base address, then adds every jar cookie in order; an unset jar adds none |
| MarketWatchRepository.MarketWatchRepository.SaveCookies | app/repository/marketwatch_repository.py:169-176 | the shared class-level jar is replaced by the session's cookies; one cookie read is recorded |
| MarketWatchRepository.CookieJar.constructor | app/repository/marketwatch_repository.py:91 | the class-level jar starts as `INITIAL_COOKIES_VALUE`, the single `datadome` cookie |
| MarketWatchRepository.MarketWatchRepository.CloseBanner | app/repository/marketwatch_repository.py:128-143 | records a click exactly when the banner's button is clicked |
| MarketWatchRepository.MarketWatchRepository.ReadStockPage | app/repository/marketwatch_repository.py:209-216 | the CAPTCHA check, the banner and saving the cookies: the jar takes the page's cookies exactly when the page is returned |
| MarketWatchRepository.MarketWatchRepository.Browse | app/repository/marketwatch_repository.py:202-216 | primes the cookies, loads the stock page and reads it; the jar changes only when a page is returned |
| MarketWatchRepository.MarketWatchRepository.OnSession | app/repository/marketwatch_repository.py:198-216 | the `with` block on a created session: the outcome `AttemptOutcome` gives; the session's calls end with exactly one quit; the jar changes only when a page is returned |
| MarketWatchRepository.MarketWatchRepository.FetchAttempt | app/repository/marketwatch_repository.py:198-216 | one attempt: one more session requested; the outcome and the calls are those of `AttemptOutcome` and `AttemptCalls` for that session |
| MarketWatchRepository.MarketWatchRepository.AttemptFrom | app/repository/marketwatch_repository.py:179-185 | the remaining attempts end as `RunFrom` says, and the trace holds exactly the calls of the attempts made |
| MarketWatchRepository.MarketWatchRepository.FetchWithRetry | app/repository/marketwatch_repository.py:179-216 | the retried fetch: the result and the number of sessions are those of `Retry` with a budget of 10 attempts, so at most 9 retries; the jar takes the cookies of the returned page's session |
| MarketWatchRepository.MarketWatchRepository.FetchEffect | app/repository/marketwatch_repository.py:178-216 | the state after a fetch of a symbol: a returned page is memoised; a hit leaves the browser and jar alone and makes its entry the most recent; a miss adds the retried fetch's sessions and calls, the jar follows the returned page, and only a returned page is stored |
| MarketWatchRepository.MarketWatchRepository.GetStockPageHtml | app/repository/marketwatch_repository.py:178-216 | the page `Fetched` gives, and `FetchEffect`: a returned page is memoised; a hit makes no browser call, keeps the jar and makes its entry the most recent; a miss runs the recorded 10-attempt fetch, the jar takes a returned session's cookies and a returned page is stored; a raised fetch stores nothing |
| MarketWatchRepository.MarketWatchRepository.GetStockPerformanceBySymbol | app/repository/marketwatch_repository.py:234-243 | the performance record of the page `Fetched` gives, or the fetch's error; the memo table, browser trace and jar change as `FetchEffect` says |
| MarketWatchRepository.MarketWatchRepository.GetStockCompetitorsBySymbol | app/repository/marketwatch_repository.py:245-260 | the competitors of the page `Fetched` gives, or the fetch's error; the memo table, browser trace and jar change as `FetchEffect` says |
| MarketWatchRepository.MarketWatchRepository.GetCompanyNameBySymbol | app/repository/marketwatch_repository.py:262-265 | the company name of the page `Fetched` gives, or the fetch's error; the memo table, browser trace and jar change as `FetchEffect` says |
| OpenCloseStockRepository.UriCarriesRequest | app/repository/open_close_stock_repository.py:28 | the address splits back into base URL, "/v1/open-close/", the symbol, "/", the date (which reads back as the requested date), "?adjusted=true&apiKey=" and the key |
| OpenCloseStockRepository.OpenCloseUri | app/repository/open_close_stock_repository.py:28 | the address is as long as the base URL, the symbol, the key and the 48 fixed characters of the endpoint and the date together |
| OpenCloseStockRepository.AddressParts | app/repository/open_close_stock_repository.py:13 | the endpoint template filled with symbol, a ten-character date and key splits back into those parts |
| OpenCloseStockRepository.StrFieldOf | app/models/dto/daily_open_close_stock.py:5-6 | a string field under its first present alias; a missing one or a non-string is an error |
| OpenCloseStockRepository.ValidateDailyOpenClose | app/models/dto/daily_open_close_stock.py:4-14 | a non-object is a model-type error; the record validates exactly when every field does; the date comes from "from" before "date"; an error lists at least one field |
| OpenCloseStockRepository.DailyFromProviderKeys | app/models/dto/daily_open_close_stock.py:4-14 | a provider document with "from", "afterHours" and "preMarket" gives the record of its values |
| OpenCloseStockRepository.DailyFromFieldNames | app/models/dto/daily_open_close_stock.py:6-14 | without the provider keys, the field names ("date", "after_hours", "pre_market") are read instead |
| OpenCloseStockRepository.DailyFromBeforeDate | app/models/dto/daily_open_close_stock.py:6 | "from" wins over "date" when both are present |
| OpenCloseStockRepository.DailyNeedsDate | app/models/dto/daily_open_close_stock.py:6 | a document with neither "from" nor "date" is refused |
| OpenCloseStockRepository.NotFoundDetail | app/repository/open_close_stock_repository.py:39 | "Stock {symbol} not found", with the symbol at offset 6 |
| OpenCloseStockRepository.GetDailyOpenCloseStock | app/repository/open_close_stock_repository.py:27-48 | a transport error is a 500 with the support message; 200 validates the body; 404 is "Stock … not found"; any other status is a 500, and a body that is not JSON raises while being logged |
| OpenCloseStockRepository.OnlyTheRequestMatters | app/repository/open_close_stock_repository.py:27-31 | two clients that answer the request address alike give the same result |
| OpenCloseStockRepository.ErrorStatusIgnoresBody | app/repository/open_close_stock_repository.py:38-48 | an error status gives the same result for any two bodies that are both JSON, or both not |
| OpenCloseStockRepository.AaplRecord | test/repository/test_open_close_stock_repository.py:29-42 | a 200 answer with the AAPL document of 2023-10-01 gives its record: "OK", 150/155/149/154, volume 1000000, after hours 157, pre-market 156 |
| OpenCloseStockRepository.InvalidSymbolNotFound | test/repository/test_open_close_stock_repository.py:44-53 | a 404 for "INVALID" is `HTTPException(404, "Stock INVALID not found")` |
| OpenCloseStockRepository.ServerAndNetworkFailures | test/repository/test_open_close_stock_repository.py:56-81 | a 500 response and a network failure both end in a 500 with the support message |
| PurchasesRepository.RowOf | app/repository/purchases_repository.py:24 | the row carries the purchase's company code and amount |
| PurchasesRepository.AmountsOf | app/repository/purchases_repository.py:30 | the amounts of the symbol's rows, never more than the rows |
| PurchasesRepository.TotalOf | app/repository/purchases_repository.py:32 | a NULL sum is 0.0; any other sum is returned as it is |
| PurchasesRepository.AmountsOfAppend | app/repository/purchases_repository.py:30 | a new row adds its amount only to its own symbol |
| PurchasesRepository.SqlSumNullIff | app/repository/purchases_repository.py:29-30 | the SQL sum is NULL exactly when no row is for the symbol |
| PurchasesRepository.NoAmountsIff | app/repository/purchases_repository.py:30 | no amounts exactly when no row matches |
| PurchasesRepository.TotalAfterPurchase | app/repository/purchases_repository.py:23-32 | recording a purchase raises its own symbol's total by its amount and leaves every other total unchanged |
| PurchasesRepository.NoPurchasesTotalZero | app/repository/purchases_repository.py:32 | a symbol without rows totals 0.0 |
| PurchasesRepository.TotalIsSumOfMatches | app/repository/purchases_repository.py:28-32 | the total is the sum of the matching amounts, and each of those comes from a row of the symbol |
| PurchasesRepository.DbSession.Add | app/repository/purchases_repository.py:25 | the row waits for the next commit; the table is unchanged |
| PurchasesRepository.DbSession.Commit | app/repository/purchases_repository.py:26 | one commit more; on success the waiting rows join the table; a raising commit (the n-th, as the environment says) keeps table and waiting rows |
| PurchasesRepository.DbSession.ScalarSum | app/repository/purchases_repository.py:29-31 | the scalar of the sum query over the committed rows |
| PurchasesRepository.PurchasesRepository.PurchaseStock | app/repository/purchases_repository.py:23-26 | one row is added and one commit made; success appends the row; a raising commit propagates and leaves the table as it was |
| PurchasesRepository.PurchasesRepository.GetPurchasesTotalAmountBySymbol | app/repository/purchases_repository.py:28-32 | the symbol's total: the SQL sum, or 0.0 when it is NULL; nothing changes |
| PurchasesRepository.FirstPurchaseTotal | test/repository/test_purchases_repository.py:13-36 | a first purchase of 100.0 AAPL makes the AAPL total 100.0 |
| RetryPolicy.Budget | app/repository/marketwatch_repository.py:180 | `stop_after_attempt(n)` allows n attempts (n - 1 retries), and always at least one |
| RetryPolicy.Ending | app/repository/marketwatch_repository.py:179-185 | a success returns its value; a failure raises its exception; a bot detection on the last attempt is RetryError |
| RetryPolicy.RunFrom | app/repository/marketwatch_repository.py:179-185 | the run makes between 1 and the remaining budget of attempts |
| RetryPolicy.RunFromContinues | app/repository/marketwatch_repository.py:182 | a bot detection with budget left hands over to the next attempt |
| RetryPolicy.RunFromStops | app/repository/marketwatch_repository.py:180-182 | any other ending, or a bot detection on the last allowed attempt, ends the run |
| RetryPolicy.Retry | app/repository/marketwatch_repository.py:179-185 | the whole call makes between 1 and n attempts |
| RetryPolicy.RunFromShape | app/repository/marketwatch_repository.py:179-185 | every attempt before the last was a bot detection, and the last decides the result |
| RetryPolicy.RetryShape | app/repository/marketwatch_repository.py:179-185 | the same for the whole call: RetryError only once the budget is spent on bot detections |
| RetryPolicy.FirstNonBotDecides | app/repository/marketwatch_repository.py:179-185 | k bot detections followed by any other ending within budget make exactly k+1 attempts, and that ending is the result |
| RetryPolicy.AllBotsExhaust | app/repository/marketwatch_repository.py:180-182 | bot detection on every attempt spends the whole budget and ends in RetryError |
| StockResponse.FloatFieldOf | app/models/dto/stock_response.py:16-21 | a float field under its first present alias: missing when no alias is present, invalid when the text does not convert |
| StockResponse.ErrorsOf | app/models/dto/stock_response.py:15-40 | a field contributes no error when it validates and its own error otherwise |
| StockResponse.LabelBeforeName | app/models/dto/stock_response.py:16-21 | the page label is tried first and the field's own name only when the label is absent |
| StockResponse.ValidatePerformance | app/models/dto/stock_response.py:15-21 | the record validates exactly when all five fields do, and holds their values; otherwise it lists at least one error |
| StockResponse.PerformanceIgnoresOtherKeys | app/models/dto/stock_response.py:15-21 | keys that are no field's alias do not change the outcome |
| StockResponse.PerformanceReadsOnlyAliases | app/models/dto/stock_response.py:15-21 | two maps that agree on the alias keys validate alike |
| StockResponse.PerformanceNeedsEveryField | app/models/dto/stock_response.py:15-21 | for each of the five fields: with neither its label nor its name present, the record fails and the report lists that field as missing |
| StockResponse.PerformanceFromLabels | app/models/dto/stock_response.py:15-21 | a map with the five labels and convertible values gives the record of those values |
| StockResponse.JsonFloat | app/models/dto/stock_response.py:24-28 | a JSON number is its value, a string is coerced, null is refused |
| StockResponse.StrField | app/models/dto/stock_response.py:32-36 | a required string field: exactly a JSON string is accepted; anything else is an invalid value |
| StockResponse.ValidateStockValues | app/models/dto/stock_response.py:24-28 | open, high, low and close validate exactly when all four do; an error lists at least one field |
| StockResponse.StockValuesFromNumbers | app/models/dto/stock_response.py:24-28 | a document with four numbers gives those values |
| StockResponse.OptionalIntField | app/models/dto/stock_response.py:33 | `int \| None`: absent or null is None; an accepted integer is a JSON number of that value; an error names this field |
| StockResponse.OptionalStrField | app/models/dto/stock_response.py:34 | `str \| None`: absent or null is None; a string is accepted |
| StockResponse.DateField | app/models/dto/stock_response.py:35 | a `date` field accepts exactly the ISO text of a calendar day |
| StockResponse.ValidateStockData | app/models/dto/stock_response.py:31-40 | validates exactly when the five checked fields do; the parts are kept; missing competitors default to the empty list |
| StockResponse.StockDataDefaults | app/models/dto/stock_response.py:33-40 | missing purchase fields default to None, and missing competitors to the empty list |
| StockResponse.PurchasedAmountWholeNumbers | app/models/dto/stock_response.py:33 | a whole-number float becomes the integer; a fractional one is refused |
| StockResponse.StockDataNeedsStatus | app/models/dto/stock_response.py:32 | a status that is not a string refuses the record |
| WebDriver.ChromeOptionsContents | app/repository/marketwatch_repository.py:96-126 | headless only when configured; always incognito, without the automation flag and extension; the drawn user agent is the last argument |
| WebDriver.AddCookieCalls | app/repository/marketwatch_repository.py:165-167 | one add per jar cookie, in jar order; none when the jar is unset |
| WebDriver.OccurrencesAppend | app/repository/marketwatch_repository.py:198-201 | counting a call distributes over concatenated traces |
| WebDriver.StartsAppend | app/repository/marketwatch_repository.py:198-201 | counting session starts distributes over concatenated traces |
| WebDriver.RemoteBrowser.NewSession | app/repository/marketwatch_repository.py:198-200 | the next session, as the environment defines it; one more session requested |
| WebDriver.RemoteBrowser.Call | app/repository/marketwatch_repository.py:202-215 | appends the call to the trace and nothing else |
| LegacyStockRepository.IsCaptchaOpen | stocks_api/repository/stock.py:87-91 | true exactly when some body script's `src` is the CAPTCHA provider's script |
| LegacyStockRepository.NoScriptsNoCaptcha | stocks_api/repository/stock.py:87-91 | a page without body scripts is no CAPTCHA; one with the provider's script is |
| LegacyStockRepository.CloseSubscriberBanner | stocks_api/repository/stock.py:78-85 | a page without the banner raises NoSuchElement; a shown banner needs a close button; a shown button is clicked |
| LegacyStockRepository.BannerDiffersOnlyWhenAbsent | stocks_api/repository/stock.py:78-85 | the two revisions treat a present banner alike; only an absent one raises here, where the current revision does nothing |
| LegacyStockRepository.AttemptOutcomeCases | stocks_api/repository/stock.py:101-119 | a failed session fails; a stock page that does not load is a navigation error; the CAPTCHA script is a bot detection; a page without the banner fails with NoSuchElement, which is not retried; any other page is returned |
| LegacyStockRepository.PageOutcome | stocks_api/repository/stock.py:109-117 | a bot detection exactly when the loaded page carries the CAPTCHA script; a returned page is the loaded page, without it |
| LegacyStockRepository.AttemptOutcome | stocks_api/repository/stock.py:101-119 | a returned page or a bot detection needs a session whose stock page loaded, and a returned page is that page |
| LegacyStockRepository.AttemptCalls | stocks_api/repository/stock.py:101-119 | a session that cannot be created makes no call; any other attempt starts with the session's options and ends with its quit |
| LegacyStockRepository.AttemptQuitsOnEveryExit | stocks_api/repository/stock.py:102-119 | the `finally` quits each created session exactly once, last, whatever the outcome |
| LegacyStockRepository.AttemptTouchesNoCookies | stocks_api/repository/stock.py:101-119 | this revision neither adds nor reads cookies |
| LegacyStockRepository.AttemptAsWritten | stocks_api/repository/stock.py:101-105 | an undeclared `remote_chrome_webdriver_address` or `selenium_headless_mode` raises AttributeError before any session is requested |
| LegacyStockRepository.LegacySettingsBreakFetch | stocks_api/repository/stock.py:93-105 | with this revision's settings class (stocks_api/app_config.py, three attributes), no session is requested and the retried fetch ends after one attempt raising AttributeError |
| LegacyStockRepository.ServiceSettingsDeclareScraperFields | app/app_config.py:8-13 | settings declaring the browser attributes make the attempt as written the attempt the scraper performs |
| LegacyStockRepository.ApiGetDailyOpenClose | stocks_api/repository/stock.py:168-190 | a transport error propagates; 200 gives the raw document; 404 is "Stock … not found"; any other status is a 500, and a body that is not JSON raises while being logged |
| LegacyStockRepository.AsCurrentError | stocks_api/repository/stock.py:176-190 | only a transport error has no counterpart among the current revision's errors |
| LegacyStockRepository.ApiRevisionsAgree | stocks_api/repository/stock.py:168-190 | against the current client: a transport error propagates here and is a 500 there; a 200 with a body is raw here and validated there; every other response gives the same error |
| LegacyStockRepository.LabelField | stocks_api/models/dto/stock_response.py:17-21 | a field read under its page label only: absent is missing, present is its coerced value or an invalid value |
| LegacyStockRepository.ValidatePerformance | stocks_api/models/dto/stock_response.py:16-21 | the record validates exactly when all five labelled fields do, and holds their values |
| LegacyStockRepository.PerformanceRevisionsAgree | stocks_api/models/dto/stock_response.py:16-21 | with every label present, both revisions give the same record; a missing "5 Day" fails here even when "five_days" is present |
| LegacyStockRepository.GetPerformance | stocks_api/repository/stock.py:126-139 | this revision's performance read: the same table, validated with label-only aliases |
| LegacyStockRepository.StockValuesOf | stocks_api/repository/stock.py:226-228 | a non-object document is a model-type error; an object validates its four prices |
| LegacyStockRepository.MarketDataFirst | stocks_api/repository/stock.py:219-224 | a market-data error is the result, whatever the scraper would give |
| LegacyStockRepository.MergeInput | stocks_api/repository/stock.py:243-251 | the merged dictionary leaves both purchase fields out and carries the stock values, performance, competitors and company name as given |
| LegacyStockRepository.Compose | stocks_api/repository/stock.py:219-254 | a market-data error is the result; a success needs the market data, its stock values and the scraper's page |
| LegacyStockRepository.ComposeScraped | stocks_api/repository/stock.py:228-254 | a fetch that returns no page fails as a scraper error; a success needs the performance, competitors and company-name reads of the page all to succeed |
| LegacyStockRepository.ComposedFields | stocks_api/repository/stock.py:219-254 | a merged record takes status, request date and company code from the document's "status", "from" and "symbol", its prices from the document, its scraped parts from one fetched page; the purchase fields stay None |
| LegacyStockRepository.MergeNeedsStatus | stocks_api/repository/stock.py:244-254 | a document without "status" cannot be merged |
| LegacyStockRepository.ScrapingStockRepository.Fetched | stocks_api/repository/stock.py:93-119 | a memoised symbol gives its stored page; otherwise the result of the 5-attempt retried fetch |
| LegacyStockRepository.ScrapingStockRepository.FetchQuitsEverySession | stocks_api/repository/stock.py:93-119 | however many attempts a fetch makes, it quits every session it creates |
| LegacyStockRepository.ScrapingStockRepository.CloseBanner | stocks_api/repository/stock.py:78-85 | records a click exactly when the banner's button is clicked |
| LegacyStockRepository.ScrapingStockRepository.ReadStockPage | stocks_api/repository/stock.py:106-117 | the outcome `PageOutcome` gives for the loaded page; only the banner's calls are recorded and no session is started |
| LegacyStockRepository.ScrapingStockRepository.FetchAttempt | stocks_api/repository/stock.py:101-119 | one attempt: the outcome and the calls are those of `AttemptOutcome` and `AttemptCalls` for the next session |
| LegacyStockRepository.ScrapingStockRepository.AttemptFrom | stocks_api/repository/stock.py:94-100 | the remaining attempts end as `RunFrom` with 5 attempts says, and the trace holds exactly their calls |
| LegacyStockRepository.ScrapingStockRepository.FetchWithRetry | stocks_api/repository/stock.py:94-119 | the result and the number of sessions are those of `Retry` with a budget of 5 attempts, so at most 4 retries |
| LegacyStockRepository.ScrapingStockRepository.FetchEffect | stocks_api/repository/stock.py:93-119 | the state after a fetch of a symbol: a returned page is memoised; a hit leaves the browser alone and makes its entry the most recent; a miss adds the retried fetch's sessions and calls, and only a returned page is stored |
| LegacyStockRepository.ScrapingStockRepository.GetStockPageHtml | stocks_api/repository/stock.py:93-119 | the page `Fetched` gives, and `FetchEffect`: a returned page is memoised; a hit makes no browser call and makes its entry the most recent; a miss runs the recorded 5-attempt fetch and stores a returned page; a raised fetch stores nothing |
| LegacyStockRepository.ScrapingStockRepository.GetStockPerformanceBySymbol | stocks_api/repository/stock.py:126-139 | the performance record of the page `Fetched` gives, or the fetch's error; the memo table and browser trace change as `FetchEffect` says |
| LegacyStockRepository.ScrapingStockRepository.GetStockCompetitorsBySymbol | stocks_api/repository/stock.py:141-157 | the competitors of the page `Fetched` gives, or the fetch's error; the memo table and browser trace change as `FetchEffect` says |
| LegacyStockRepository.ScrapingStockRepository.GetCompanyNameBySymbol | stocks_api/repository/stock.py:159-161 | the company name of the page `Fetched` gives, or the fetch's error; the memo table and browser trace change as `FetchEffect` says |
| LegacyStockRepository.LegacyPurchasesRepository.PurchaseStock | stocks_api/repository/stock.py:198-201 | one row added and one commit; success appends the waiting rows and the new one; a raising commit leaves the table as it was |
| LegacyStockRepository.LegacyPurchasesRepository.GetStockBySymbol | stocks_api/repository/stock.py:203-204 | always None |
| LegacyStockRepository.CompositeStockRepository.constructor | stocks_api/repository/stock.py:208-217 | the market-data client and the scraper share one settings object |
| LegacyStockRepository.CompositeStockRepository.GetStockBySymbol | stocks_api/repository/stock.py:219-254 | the result is `Compose` of the market-data answer and the page the first scraper read fetches; a market-data or stock-values error leaves the scraper, the memo table and the browser untouched; otherwise the scraper's new state is `FetchEffect` of the symbol, that of a single fetch |
| LegacyStockRepository.CompositeStockRepository.ScrapeAndMerge | stocks_api/repository/stock.py:228-254 | the three reads see one page and the merge validates their results; the memo table, sessions and call trace end as `FetchEffect` of one fetch of the symbol says |
| LegacyStockRepository.CompositeStockRepository.MergeCachedPage | stocks_api/repository/stock.py:233-254 | the competitors and company-name reads hit the entry the first read left most recent, so the memo table, sessions and call trace stay unchanged; the result is the merge of that page's reads |
| LegacyStockRepository.CompositeStockRepository.PurchaseStock | stocks_api/repository/stock.py:256-257 | one commit more; success appends the waiting rows and the new one and empties the waiting list; a raising commit propagates, keeps the table and leaves the new row waiting |

## Left out

- Selenium, BeautifulSoup and the HTML are not modelled. A loaded page is
  the few facts the code reads: its source text or body script
  addresses, the banner, its cookies and its parsed table rows.
- `execute_script`, `maximize_window` and `set_page_load_timeout` are
  not recorded in the trace. Neither is the page-source read.
- The random user agent and the random wait between attempts are not
  modelled. The user agent is a parameter of each session, and the wait
  is not modelled at all.
- The `lru_cache` table is one class-wide table keyed by (repository,
  symbol). The model hands each repository its table through the
  constructor; the key type carries the repository, so one table can
  serve several instances, but the model does not force instances to
  share a table. A caller that gives instances separate tables loses the
  eviction of one instance's entries by another's.
- The thread pool, `asyncio` and concurrent callers are not modelled.
  Calls are sequential, and the memo table and cookie jar are never
  contended.
- Floating point is not modelled. Amounts are exact reals; the SQL `SUM`
  of floats and `float(Decimal)` rounding are not modelled.
- pydantic's text-to-float grammar is not modelled: it is the parameter
  `FloatParser`. Its other lax coercions are left out too.
- StockResponse.OptionalIntField: accepts only a JSON null or a whole
  JSON number; pydantic's lax mode also takes numeric strings and
  booleans for `int | None`, which the model refuses.
- StockResponse.DateField: accepts only ISO `YYYY-MM-DD` text; pydantic
  also takes timestamps and other date forms for `date`, which the model
  refuses.
- Regex `\d` is ASCII digits only. Python also accepts other Unicode
  decimal digits.
- The Decimal context (precision, signals) is not modelled. Products are
  exact.
- Logging, the Redis response cache, the routers, the services, the
  database engine and the Alembic migrations are not part of this model.
- The database session after a failed commit is not modelled beyond this:
  rows stay pending, and the query reads committed rows only. A rollback
  is not modelled.
- CurrencyUtils.ConvertCurrencyString stands in for the older revision's
  parser. `stocks_api/common/currency_utils.py` is not part of this model.
- The older revision's `purchases.amount` column is declared as a
  string. The model stores it as the number the purchase carries.
- LegacyStockRepository.ScrapingStockRepository: the class is built over
  the current five-field `AppConfig.Settings`, so its rows describe the
  scraper with the browser attributes declared (the corrected half of the
  finding below). With the older revision's own three-attribute settings
  class, every fetch instead ends after one attempt in AttributeError, as
  LegacyStockRepository.LegacySettingsBreakFetch states.
- LegacyStockRepository.AttemptOutcome: the older revision never loads
  the base address, so a session's `baseUrlFails` is not read.
- StockResponse.ValidateStockData: only the five fields the model
  validates itself are checked. The nested records are taken as already
  validated.

Where the code and its documentation disagree, the model follows the code:

- The magnitude suffix is matched in upper case only. A lower-case
  suffix is ignored and the multiplier is 1.
- After 10 bot detections the call raises tenacity's `RetryError`, not
  the last bot-detection error.
- A shown banner without a close button raises. Dismissing the banner is
  not best-effort.
- The purchase test calls `purchase_stock(company_code=..., amount=...)`,
  but the method takes one `PurchaseStockAmount`. The model follows the
  method.

## Findings

| source | as written | input that shows it | evidently intended | confidence | as-written member | corrected member |
|---|---|---|---|---|---|---|
| stocks_api/repository/stock.py:55,103 | the scraper reads `settings.remote_chrome_webdriver_address` and `settings.selenium_headless_mode`, but its settings class (stocks_api/app_config.py:6-9) declares neither, so every fetch raises AttributeError on the first attempt, before any browser session, and is not retried | any symbol, with `Settings(polygon_api_key=...)` of stocks_api/app_config.py | the settings class declares the two browser attributes, as app/app_config.py:12-13 does, and the fetch runs its 5 attempts | high, not executed | LegacyStockRepository.LegacySettingsBreakFetch | LegacyStockRepository.ServiceSettingsDeclareScraperFields |
