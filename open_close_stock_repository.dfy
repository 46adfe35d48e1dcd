/**
 * The market-data repository: one GET of the provider's daily open/close
 * endpoint, whose outcome (a transport failure, or a response with a status
 * code and a body) is dispatched to a validated record or to one error.
 * The HTTP client is a parameter: it maps the request URI to its outcome.
 */
module OpenCloseStockRepository {
  import opened Wrappers
  import opened JsonValues
  import opened StockResponse
  import Dates
  import AppConfig

  // ---------------------------------------------------------------------
  // The request

  const EndpointPrefix: string := "/v1/open-close/"
  const EndpointQuery: string := "?adjusted=true&apiKey="

  /** The endpoint template with the symbol, the date text and the key filled in. */
  function OpenCloseEndpoint(symbol: string, date: string, apiKey: string): string {
    EndpointPrefix + symbol + "/" + date + EndpointQuery + apiKey
  }

  /** The request address: the configured base URL followed by the filled-in endpoint. */
  function OpenCloseUri(settings: AppConfig.Settings, symbol: string, date: Dates.Date): (u: string)
    ensures |u| == |settings.polygonBaseUrl| + |symbol| + |settings.polygonApiKey| + 48
  {
    settings.polygonBaseUrl + OpenCloseEndpoint(symbol, Dates.IsoFormat(date), settings.polygonApiKey)
  }

  /**
   * The address can be read back: the base URL, the symbol, the date (in a
   * form the date parser gives back unchanged) and the key each sit at a
   * fixed place between the template's literal parts.
   */
  lemma UriCarriesRequest(settings: AppConfig.Settings, symbol: string, date: Dates.Date)
    ensures var u := OpenCloseUri(settings, symbol, date);
            var b := |settings.polygonBaseUrl|;
            var n := |symbol|;
      && u[..b] == settings.polygonBaseUrl
      && u[b..b + 15] == EndpointPrefix
      && u[b + 15..b + 15 + n] == symbol
      && u[b + 15 + n] == '/'
      && Dates.ParseIsoDate(u[b + 16 + n..b + 26 + n]) == Some(date)
      && u[b + 26 + n..b + 48 + n] == EndpointQuery
      && u[b + 48 + n..] == settings.polygonApiKey
  {
    AddressParts(settings.polygonBaseUrl, symbol, Dates.IsoFormat(date), settings.polygonApiKey);
    Dates.IsoRoundTrip(date);
  }

  /** The template's pieces, for any texts filled in; the date text has ten characters. */
  lemma AddressParts(base: string, symbol: string, date: string, key: string)
    requires |date| == 10
    ensures var u := base + OpenCloseEndpoint(symbol, date, key);
            var b, n := |base|, |symbol|;
      && u[..b] == base
      && u[b..b + 15] == EndpointPrefix
      && u[b + 15..b + 15 + n] == symbol
      && u[b + 15 + n] == '/'
      && u[b + 16 + n..b + 26 + n] == date
      && u[b + 26 + n..b + 48 + n] == EndpointQuery
      && u[b + 48 + n..] == key
  {
    var P, Q := EndpointPrefix, EndpointQuery;
    assert base + OpenCloseEndpoint(symbol, date, key) == base + P + symbol + "/" + date + Q + key;
    Middle(base, P, symbol + "/" + date + Q + key);
    Middle(base + P, symbol, "/" + date + Q + key);
    Middle(base + P + symbol, "/", date + Q + key);
    Middle(base + P + symbol + "/", date, Q + key);
    Middle(base + P + symbol + "/" + date, Q, key);
  }

  /** The three pieces of a concatenation, each at its own place. */
  lemma Middle<T>(a: seq<T>, m: seq<T>, c: seq<T>)
    ensures (a + m + c)[..|a|] == a
    ensures (a + m + c)[|a|..|a| + |m|] == m
    ensures (a + m + c)[|a| + |m|..] == c
  {
  }

  // ---------------------------------------------------------------------
  // The record

  /** `DailyOpenCloseStock`; `volume` is a float field like the prices. */
  datatype DailyOpenCloseStock = DailyOpenCloseStock(
    status: string,
    date: string,
    symbol: string,
    open: real,
    high: real,
    low: real,
    close: real,
    volume: real,
    afterHours: real,
    preMarket: real)

  const DateAliases: seq<string> := ["from", "date"]
  const AfterHoursAliases: seq<string> := ["afterHours", "after_hours"]
  const PreMarketAliases: seq<string> := ["preMarket", "pre_market"]

  /** A required `str` field under its alias choices: only a JSON string is accepted. */
  function StrFieldOf(fields: map<string, Json>, name: string, aliases: seq<string>): (r: Result<string, FieldError>)
    ensures r == Err(Missing(name)) <==> forall i :: 0 <= i < |aliases| ==> aliases[i] !in fields
    ensures r.Ok? ==> FirstAlias(fields, aliases) == Some(JString(r.value))
    ensures r.Err? ==> r.error in {Missing(name), InvalidValue(name)}
  {
    match FirstAlias(fields, aliases)
    case None => Err(Missing(name))
    case Some(j) => StrField(j, name)
  }

  /**
   * `DailyOpenCloseStock.model_validate` on a decoded document: a mapping is
   * required; every field is checked and each failing one reported, in
   * field order; keys the record does not name are ignored.
   */
  function ValidateDailyOpenClose(body: Json, toFloat: FloatParser): (r: Result<DailyOpenCloseStock, seq<FieldError>>)
    ensures !body.JObject? ==> r == Err([ModelType])
    ensures body.JObject? ==>
      var fs, parse := body.fields, JsonFloat(toFloat);
      (r.Ok? <==>
        && StrFieldOf(fs, "status", ["status"]).Ok?
        && StrFieldOf(fs, "date", DateAliases).Ok?
        && StrFieldOf(fs, "symbol", ["symbol"]).Ok?
        && FloatFieldOf(fs, "open", ["open"], parse).Ok?
        && FloatFieldOf(fs, "high", ["high"], parse).Ok?
        && FloatFieldOf(fs, "low", ["low"], parse).Ok?
        && FloatFieldOf(fs, "close", ["close"], parse).Ok?
        && FloatFieldOf(fs, "volume", ["volume"], parse).Ok?
        && FloatFieldOf(fs, "after_hours", AfterHoursAliases, parse).Ok?
        && FloatFieldOf(fs, "pre_market", PreMarketAliases, parse).Ok?)
    ensures r.Ok? ==> body.JObject? && FirstAlias(body.fields, DateAliases) == Some(JString(r.value.date))
    ensures r.Err? ==> |r.error| > 0
  {
    match body
    case JObject(fs) =>
      var parse := JsonFloat(toFloat);
      var status := StrFieldOf(fs, "status", ["status"]);
      var date := StrFieldOf(fs, "date", DateAliases);
      var symbol := StrFieldOf(fs, "symbol", ["symbol"]);
      var open := FloatFieldOf(fs, "open", ["open"], parse);
      var high := FloatFieldOf(fs, "high", ["high"], parse);
      var low := FloatFieldOf(fs, "low", ["low"], parse);
      var close := FloatFieldOf(fs, "close", ["close"], parse);
      var volume := FloatFieldOf(fs, "volume", ["volume"], parse);
      var after := FloatFieldOf(fs, "after_hours", AfterHoursAliases, parse);
      var pre := FloatFieldOf(fs, "pre_market", PreMarketAliases, parse);
      if status.Ok? && date.Ok? && symbol.Ok? && open.Ok? && high.Ok? && low.Ok? && close.Ok?
         && volume.Ok? && after.Ok? && pre.Ok? then
        Ok(DailyOpenCloseStock(status.value, date.value, symbol.value, open.value, high.value,
                               low.value, close.value, volume.value, after.value, pre.value))
      else
        Err(ErrorsOf(status) + ErrorsOf(date) + ErrorsOf(symbol) + ErrorsOf(open) + ErrorsOf(high)
            + ErrorsOf(low) + ErrorsOf(close) + ErrorsOf(volume) + ErrorsOf(after) + ErrorsOf(pre))
    case _ => Err([ModelType])
  }

  /**
   * The provider's own key names: "from" for the date and the camel-case
   * extended-hours keys give exactly the values stored under them.
   */
  lemma DailyFromProviderKeys(fs: map<string, Json>, toFloat: FloatParser, status: string, date: string,
                              symbol: string, o: real, h: real, l: real, c: real, v: real, ah: real, pm: real)
    requires "status" in fs && fs["status"] == JString(status)
    requires "from" in fs && fs["from"] == JString(date)
    requires "symbol" in fs && fs["symbol"] == JString(symbol)
    requires "open" in fs && fs["open"] == JNumber(o)
    requires "high" in fs && fs["high"] == JNumber(h)
    requires "low" in fs && fs["low"] == JNumber(l)
    requires "close" in fs && fs["close"] == JNumber(c)
    requires "volume" in fs && fs["volume"] == JNumber(v)
    requires "afterHours" in fs && fs["afterHours"] == JNumber(ah)
    requires "preMarket" in fs && fs["preMarket"] == JNumber(pm)
    ensures ValidateDailyOpenClose(JObject(fs), toFloat) ==
      Ok(DailyOpenCloseStock(status, date, symbol, o, h, l, c, v, ah, pm))
  {
    var r := ValidateDailyOpenClose(JObject(fs), toFloat);
    assert FirstAlias(fs, ["status"]) == Some(JString(status));
    assert FirstAlias(fs, DateAliases) == Some(JString(date));
    assert FirstAlias(fs, ["symbol"]) == Some(JString(symbol));
    assert FirstAlias(fs, ["open"]) == Some(JNumber(o));
    assert FirstAlias(fs, ["high"]) == Some(JNumber(h));
    assert FirstAlias(fs, ["low"]) == Some(JNumber(l));
    assert FirstAlias(fs, ["close"]) == Some(JNumber(c));
    assert FirstAlias(fs, ["volume"]) == Some(JNumber(v));
    assert FirstAlias(fs, AfterHoursAliases) == Some(JNumber(ah));
    assert FirstAlias(fs, PreMarketAliases) == Some(JNumber(pm));
  }

  /** The record's own field names are accepted when the provider's keys are absent. */
  lemma DailyFromFieldNames(fs: map<string, Json>, toFloat: FloatParser)
    requires "from" !in fs && "afterHours" !in fs && "preMarket" !in fs
    ensures FirstAlias(fs, DateAliases) == (if "date" in fs then Some(fs["date"]) else None)
    ensures FirstAlias(fs, AfterHoursAliases) == (if "after_hours" in fs then Some(fs["after_hours"]) else None)
    ensures FirstAlias(fs, PreMarketAliases) == (if "pre_market" in fs then Some(fs["pre_market"]) else None)
  {
    assert DateAliases[1..] == ["date"];
    assert AfterHoursAliases[1..] == ["after_hours"];
    assert PreMarketAliases[1..] == ["pre_market"];
  }

  /** With both "from" and "date" present, the date is the text under "from". */
  lemma DailyFromBeforeDate(fs: map<string, Json>, toFloat: FloatParser)
    requires "from" in fs && "date" in fs
    requires ValidateDailyOpenClose(JObject(fs), toFloat).Ok?
    ensures fs["from"] == JString(ValidateDailyOpenClose(JObject(fs), toFloat).value.date)
  {
  }

  /** A document with neither date key is refused, and the report names the missing date. */
  lemma DailyNeedsDate(fs: map<string, Json>, toFloat: FloatParser)
    requires "from" !in fs && "date" !in fs
    ensures ValidateDailyOpenClose(JObject(fs), toFloat).Err?
    ensures Missing("date") in ValidateDailyOpenClose(JObject(fs), toFloat).error
  {
    var r := StrFieldOf(fs, "date", DateAliases);
    assert r == Err(Missing("date"));
    var status := StrFieldOf(fs, "status", ["status"]);
    assert ErrorsOf(status) + ErrorsOf(r) == ErrorsOf(status) + [Missing("date")];
  }

  // ---------------------------------------------------------------------
  // The dispatch

  /** What the HTTP client's `get` gives back. */
  datatype HttpOutcome =
    | RequestFailed                                  // the client raised a transport error
    | Response(statusCode: int, body: Option<Json>)  // `None`: the body is not a JSON document

  /** The ways a call ends without a record. */
  datatype OpenCloseError =
    | HttpError(statusCode: int, detail: string)     // an HTTP error raised to the caller
    | ValidationFailed(errors: seq<FieldError>)      // the document is not a valid record
    | BodyNotJson                                    // decoding the body as JSON raised

  const SupportMessage: string := "Internal error. Please contact support."

  /** The 404 detail; the symbol can be read back from between its fixed parts. */
  function NotFoundDetail(symbol: string): (d: string)
    ensures |d| == |symbol| + 16
    ensures d[..6] == "Stock " && d[6..6 + |symbol|] == symbol && d[6 + |symbol|..] == " not found"
  {
    Middle("Stock ", symbol, " not found");
    "Stock " + symbol + " not found"
  }

  /**
   * `get_daily_open_close_sotck`: one request to `OpenCloseUri`, then
   * 200 validates the body, 404 reports the symbol as not found, and any
   * other status is an internal error once its body has been decoded for
   * the log line (a body that does not decode raises instead).
   */
  function GetDailyOpenCloseStock(settings: AppConfig.Settings, symbol: string, date: Dates.Date,
                                  get: string -> HttpOutcome, toFloat: FloatParser): (r: Result<DailyOpenCloseStock, OpenCloseError>)
    ensures var o := get(OpenCloseUri(settings, symbol, date));
      && (r.Ok? <==> o.Response? && o.statusCode == 200 && o.body.Some?
                     && ValidateDailyOpenClose(o.body.value, toFloat).Ok?)
      && (r.Ok? ==> Ok(r.value) == ValidateDailyOpenClose(o.body.value, toFloat))
      && (r == Err(HttpError(404, NotFoundDetail(symbol))) <==> o.Response? && o.statusCode == 404)
      && (r == Err(HttpError(500, SupportMessage)) <==>
            o.RequestFailed? || (o.Response? && o.statusCode != 200 && o.statusCode != 404 && o.body.Some?))
      && (r == Err(BodyNotJson) <==> o.Response? && o.statusCode != 404 && o.body.None?)
      && (r.Err? && r.error.ValidationFailed? <==>
            o.Response? && o.statusCode == 200 && o.body.Some?
            && ValidateDailyOpenClose(o.body.value, toFloat).Err?)
  {
    match get(OpenCloseUri(settings, symbol, date))
    case RequestFailed => Err(HttpError(500, SupportMessage))
    case Response(code, body) =>
      if code == 200 then
        match body
        case None => Err(BodyNotJson)
        case Some(j) =>
          match ValidateDailyOpenClose(j, toFloat)
          case Ok(v) => Ok(v)
          case Err(es) => Err(ValidationFailed(es))
      else if code == 404 then Err(HttpError(404, NotFoundDetail(symbol)))
      else if body.None? then Err(BodyNotJson)
      else Err(HttpError(500, SupportMessage))
  }

  /**
   * The outcome of the single request decides the result: two clients that
   * answer the request address alike give the same result, whatever they
   * answer elsewhere.
   */
  lemma OnlyTheRequestMatters(settings: AppConfig.Settings, symbol: string, date: Dates.Date,
                              get1: string -> HttpOutcome, get2: string -> HttpOutcome, toFloat: FloatParser)
    requires get1(OpenCloseUri(settings, symbol, date)) == get2(OpenCloseUri(settings, symbol, date))
    ensures GetDailyOpenCloseStock(settings, symbol, date, get1, toFloat)
         == GetDailyOpenCloseStock(settings, symbol, date, get2, toFloat)
  {
  }

  /** Apart from a 200, the body's content never matters, only whether it decodes. */
  lemma ErrorStatusIgnoresBody(settings: AppConfig.Settings, symbol: string, date: Dates.Date,
                               get1: string -> HttpOutcome, get2: string -> HttpOutcome, toFloat: FloatParser)
    requires var o1, o2 := get1(OpenCloseUri(settings, symbol, date)), get2(OpenCloseUri(settings, symbol, date));
      o1.Response? && o2.Response? && o1.statusCode == o2.statusCode && o1.statusCode != 200
      && o1.body.Some? == o2.body.Some?
    ensures GetDailyOpenCloseStock(settings, symbol, date, get1, toFloat)
         == GetDailyOpenCloseStock(settings, symbol, date, get2, toFloat)
  {
  }

  // ---------------------------------------------------------------------
  // The recorded conversations

  /**
   * The provider's answer for AAPL on 2023-10-01. The test imports this
   * document as `AAPL_DAILY_OPEN_CLOSE_STOCK_DATA`, which test/constants.py
   * does not define; it is rebuilt here from the expected record
   * `AAPL_DAILY_OPEN_CLOSE_STOCK` (test/constants.py:6-17), under the
   * provider's key names.
   */
  const AaplDocument: map<string, Json> := map[
    "status" := JString("OK"), "from" := JString("2023-10-01"), "symbol" := JString("AAPL"),
    "open" := JNumber(150.0), "high" := JNumber(155.0), "low" := JNumber(149.0),
    "close" := JNumber(154.0), "volume" := JNumber(1000000.0),
    "afterHours" := JNumber(157.0), "preMarket" := JNumber(156.0)]

  /** A 200 carrying the AAPL document gives the AAPL record. */
  lemma AaplRecord(settings: AppConfig.Settings, date: Dates.Date, get: string -> HttpOutcome, toFloat: FloatParser)
    requires get(OpenCloseUri(settings, "AAPL", date)) == Response(200, Some(JObject(AaplDocument)))
    ensures GetDailyOpenCloseStock(settings, "AAPL", date, get, toFloat)
         == Ok(DailyOpenCloseStock("OK", "2023-10-01", "AAPL", 150.0, 155.0, 149.0, 154.0, 1000000.0, 157.0, 156.0))
  {
    DailyFromProviderKeys(AaplDocument, toFloat, "OK", "2023-10-01", "AAPL",
                          150.0, 155.0, 149.0, 154.0, 1000000.0, 157.0, 156.0);
  }

  /** A 404 is reported with status 404, naming the symbol. */
  lemma InvalidSymbolNotFound(settings: AppConfig.Settings, date: Dates.Date, get: string -> HttpOutcome, toFloat: FloatParser)
    requires get(OpenCloseUri(settings, "INVALID", date)) == Response(404, Some(JObject(map[])))
    ensures GetDailyOpenCloseStock(settings, "INVALID", date, get, toFloat)
         == Err(HttpError(404, "Stock INVALID not found"))
  {
    assert NotFoundDetail("INVALID") == "Stock INVALID not found";
  }

  /** A 500 with a JSON body, and a transport failure, are both the generic internal error. */
  lemma ServerAndNetworkFailures(settings: AppConfig.Settings, date: Dates.Date, get1: string -> HttpOutcome,
                                 get2: string -> HttpOutcome, toFloat: FloatParser)
    requires get1(OpenCloseUri(settings, "AAPL", date)) == Response(500, Some(JObject(map[])))
    requires get2(OpenCloseUri(settings, "AAPL", date)) == RequestFailed
    ensures GetDailyOpenCloseStock(settings, "AAPL", date, get1, toFloat) == Err(HttpError(500, SupportMessage))
    ensures GetDailyOpenCloseStock(settings, "AAPL", date, get2, toFloat) == Err(HttpError(500, SupportMessage))
  {
  }
}
