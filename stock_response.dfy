/**
 * The response records of the stock endpoint and the validation that builds
 * them (pydantic's `model_validate`): each float field is looked up under
 * its alias choices, converted, and every field that fails is reported, in
 * field order.
 */
module StockResponse {
  import opened Wrappers
  import opened JsonValues
  import Dates

  /**
   * pydantic's lax conversion of a text to a float. Its grammar (signs,
   * exponents, "inf", surrounding blanks) is not modelled, so it is a
   * parameter of every validation that needs it.
   */
  type FloatParser = string -> Option<real>

  /** One entry of a validation error. */
  datatype FieldError =
    | Missing(field: string)
    | InvalidValue(field: string)
    | ModelType               // the input is not a mapping, so no field is read

  datatype MarketCapData = MarketCapData(currency: string, value: real)

  datatype CompetitorData = CompetitorData(name: string, marketCap: MarketCapData)

  datatype PerformanceData = PerformanceData(
    fiveDays: real, oneMonth: real, threeMonths: real, yearToDate: real, oneYear: real)

  datatype StockValuesData = StockValuesData(open: real, high: real, low: real, close: real)

  datatype StockData = StockData(
    status: string,
    purchasedAmount: Option<int>,
    purchasedStatus: Option<string>,
    requestData: Dates.Date,
    companyCode: string,
    companyName: string,
    stockValues: StockValuesData,
    performanceData: PerformanceData,
    competitors: seq<CompetitorData>)

  // ---------------------------------------------------------------------
  // One field

  /**
   * A required float field: the value under the first of `aliases` that is
   * present, converted by `parse`.
   */
  function FloatFieldOf<V>(fields: map<string, V>, name: string, aliases: seq<string>,
                           parse: V -> Option<real>): (r: Result<real, FieldError>)
    ensures r == Err(Missing(name)) <==> forall i :: 0 <= i < |aliases| ==> aliases[i] !in fields
    ensures r.Ok? ==> exists i :: 0 <= i < |aliases| && aliases[i] in fields
                         && (forall j :: 0 <= j < i ==> aliases[j] !in fields)
                         && parse(fields[aliases[i]]) == Some(r.value)
    ensures r.Err? ==> r.error in {Missing(name), InvalidValue(name)}
  {
    match FirstAlias(fields, aliases)
    case None => Err(Missing(name))
    case Some(v) =>
      match parse(v)
      case None => Err(InvalidValue(name))
      case Some(x) => Ok(x)
  }

  /** The error a field contributes to the report: none, or its own. */
  function ErrorsOf<T>(r: Result<T, FieldError>): (es: seq<FieldError>)
    ensures r.Ok? <==> es == []
    ensures r.Err? ==> es == [r.error]
  {
    if r.Ok? then [] else [r.error]
  }

  /**
   * A field that takes its alias choices as (page label, own name): the
   * label is tried first, and the own name only when the label is absent.
   */
  lemma {:induction false} LabelBeforeName<V>(fields: map<string, V>, name: string, pageLabel: string,
                                              parse: V -> Option<real>)
    ensures pageLabel in fields ==>
      FloatFieldOf(fields, name, [pageLabel, name], parse) ==
        (if parse(fields[pageLabel]).Some? then Ok(parse(fields[pageLabel]).value) else Err(InvalidValue(name)))
    ensures pageLabel !in fields && name in fields ==>
      FloatFieldOf(fields, name, [pageLabel, name], parse) ==
        (if parse(fields[name]).Some? then Ok(parse(fields[name]).value) else Err(InvalidValue(name)))
    ensures pageLabel !in fields && name !in fields ==>
      FloatFieldOf(fields, name, [pageLabel, name], parse) == Err(Missing(name))
  {
    var aliases := [pageLabel, name];
    if pageLabel in fields {
      assert FirstAlias(fields, aliases) == Some(fields[pageLabel]);
    } else if name in fields {
      assert aliases[1..] == [name];
      assert FirstAlias(fields, aliases[1..]) == Some(fields[name]);
      assert FirstAlias(fields, aliases) == Some(fields[name]);
    }
  }

  // ---------------------------------------------------------------------
  // PerformanceData

  const FiveDaysAliases: seq<string> := ["5 Day", "five_days"]
  const OneMonthAliases: seq<string> := ["1 Month", "one_month"]
  const ThreeMonthsAliases: seq<string> := ["3 Month", "three_months"]
  const YearToDateAliases: seq<string> := ["YTD", "year_to_date"]
  const OneYearAliases: seq<string> := ["1 Year", "one_year"]

  /** Every key a PerformanceData field reads. */
  predicate IsPerformanceKey(k: string) {
    k in FiveDaysAliases || k in OneMonthAliases || k in ThreeMonthsAliases
    || k in YearToDateAliases || k in OneYearAliases
  }

  /**
   * `PerformanceData.model_validate` on the label → text map scraped from
   * the page: five required fields, each under its page label or its own
   * name; the report lists every failing field in field order.
   */
  function ValidatePerformance(values: map<string, string>, toFloat: FloatParser): (r: Result<PerformanceData, seq<FieldError>>)
    ensures r.Ok? <==>
      FloatFieldOf(values, "five_days", FiveDaysAliases, toFloat).Ok?
      && FloatFieldOf(values, "one_month", OneMonthAliases, toFloat).Ok?
      && FloatFieldOf(values, "three_months", ThreeMonthsAliases, toFloat).Ok?
      && FloatFieldOf(values, "year_to_date", YearToDateAliases, toFloat).Ok?
      && FloatFieldOf(values, "one_year", OneYearAliases, toFloat).Ok?
    ensures r.Ok? ==> r.value == PerformanceData(
      FloatFieldOf(values, "five_days", FiveDaysAliases, toFloat).value,
      FloatFieldOf(values, "one_month", OneMonthAliases, toFloat).value,
      FloatFieldOf(values, "three_months", ThreeMonthsAliases, toFloat).value,
      FloatFieldOf(values, "year_to_date", YearToDateAliases, toFloat).value,
      FloatFieldOf(values, "one_year", OneYearAliases, toFloat).value)
    ensures r.Err? ==> |r.error| > 0
  {
    var f1 := FloatFieldOf(values, "five_days", FiveDaysAliases, toFloat);
    var f2 := FloatFieldOf(values, "one_month", OneMonthAliases, toFloat);
    var f3 := FloatFieldOf(values, "three_months", ThreeMonthsAliases, toFloat);
    var f4 := FloatFieldOf(values, "year_to_date", YearToDateAliases, toFloat);
    var f5 := FloatFieldOf(values, "one_year", OneYearAliases, toFloat);
    if f1.Ok? && f2.Ok? && f3.Ok? && f4.Ok? && f5.Ok? then
      Ok(PerformanceData(f1.value, f2.value, f3.value, f4.value, f5.value))
    else
      Err(ErrorsOf(f1) + ErrorsOf(f2) + ErrorsOf(f3) + ErrorsOf(f4) + ErrorsOf(f5))
  }

  /** Keys that are no field's alias do not change the outcome. */
  lemma PerformanceIgnoresOtherKeys(values: map<string, string>, toFloat: FloatParser)
    ensures ValidatePerformance(values, toFloat) ==
      ValidatePerformance(map k | k in values && IsPerformanceKey(k) :: values[k], toFloat)
  {
    var kept := map k | k in values && IsPerformanceKey(k) :: values[k];
    PerformanceReadsOnlyAliases(values, kept, toFloat);
  }

  /** Two maps that agree on every alias key validate alike. */
  lemma PerformanceReadsOnlyAliases(a: map<string, string>, b: map<string, string>, toFloat: FloatParser)
    requires forall k :: IsPerformanceKey(k) ==> (k in a <==> k in b)
    requires forall k :: IsPerformanceKey(k) && k in a ==> a[k] == b[k]
    ensures ValidatePerformance(a, toFloat) == ValidatePerformance(b, toFloat)
  {
    AliasesAgree(a, b, FiveDaysAliases);
    AliasesAgree(a, b, OneMonthAliases);
    AliasesAgree(a, b, ThreeMonthsAliases);
    AliasesAgree(a, b, YearToDateAliases);
    AliasesAgree(a, b, OneYearAliases);
    SameLookupsSameRecord(a, b, toFloat);
  }

  /** The record depends on the map only through the five alias lookups. */
  lemma SameLookupsSameRecord(a: map<string, string>, b: map<string, string>, toFloat: FloatParser)
    requires FirstAlias(a, FiveDaysAliases) == FirstAlias(b, FiveDaysAliases)
    requires FirstAlias(a, OneMonthAliases) == FirstAlias(b, OneMonthAliases)
    requires FirstAlias(a, ThreeMonthsAliases) == FirstAlias(b, ThreeMonthsAliases)
    requires FirstAlias(a, YearToDateAliases) == FirstAlias(b, YearToDateAliases)
    requires FirstAlias(a, OneYearAliases) == FirstAlias(b, OneYearAliases)
    ensures ValidatePerformance(a, toFloat) == ValidatePerformance(b, toFloat)
  {
    SameLookupSameField(a, b, "five_days", FiveDaysAliases, toFloat);
    SameLookupSameField(a, b, "one_month", OneMonthAliases, toFloat);
    SameLookupSameField(a, b, "three_months", ThreeMonthsAliases, toFloat);
    SameLookupSameField(a, b, "year_to_date", YearToDateAliases, toFloat);
    SameLookupSameField(a, b, "one_year", OneYearAliases, toFloat);
  }

  lemma SameLookupSameField<V>(a: map<string, V>, b: map<string, V>, name: string, aliases: seq<string>,
                               parse: V -> Option<real>)
    requires FirstAlias(a, aliases) == FirstAlias(b, aliases)
    ensures FloatFieldOf(a, name, aliases, parse) == FloatFieldOf(b, name, aliases, parse)
  {
  }

  lemma AliasesAgree(a: map<string, string>, b: map<string, string>, aliases: seq<string>)
    requires forall i :: 0 <= i < |aliases| ==> IsPerformanceKey(aliases[i])
    requires forall k :: IsPerformanceKey(k) ==> (k in a <==> k in b)
    requires forall k :: IsPerformanceKey(k) && k in a ==> a[k] == b[k]
    ensures FirstAlias(a, aliases) == FirstAlias(b, aliases)
  {
    FirstAliasReadsOnlyAliases(a, b, aliases);
  }

  /** The five fields of PerformanceData, in field order, each with its (page label, own name) aliases. */
  const PerformanceFields: seq<(string, seq<string>)> := [
    ("five_days", FiveDaysAliases), ("one_month", OneMonthAliases), ("three_months", ThreeMonthsAliases),
    ("year_to_date", YearToDateAliases), ("one_year", OneYearAliases)]

  /**
   * Any of the five fields with neither its label nor its name present
   * fails the whole record, and the report names that field as missing.
   */
  lemma PerformanceNeedsEveryField(values: map<string, string>, toFloat: FloatParser, i: nat)
    requires i < |PerformanceFields|
    requires PerformanceFields[i].1[0] !in values && PerformanceFields[i].1[1] !in values
    ensures ValidatePerformance(values, toFloat).Err?
    ensures Missing(PerformanceFields[i].0) in ValidatePerformance(values, toFloat).error
  {
    var name, pageLabel := PerformanceFields[i].0, PerformanceFields[i].1[0];
    assert PerformanceFields[i].1 == [pageLabel, name];
    LabelBeforeName(values, name, pageLabel, toFloat);
    var f := FloatFieldOf(values, name, [pageLabel, name], toFloat);
    assert ErrorsOf(f) == [Missing(name)];
  }

  /**
   * The five page labels, each with a text that converts, give the record
   * of the converted values (the page wins over a field's own name).
   */
  lemma PerformanceFromLabels(values: map<string, string>, toFloat: FloatParser,
                              d5: real, m1: real, m3: real, ytd: real, y1: real)
    requires "5 Day" in values && toFloat(values["5 Day"]) == Some(d5)
    requires "1 Month" in values && toFloat(values["1 Month"]) == Some(m1)
    requires "3 Month" in values && toFloat(values["3 Month"]) == Some(m3)
    requires "YTD" in values && toFloat(values["YTD"]) == Some(ytd)
    requires "1 Year" in values && toFloat(values["1 Year"]) == Some(y1)
    ensures ValidatePerformance(values, toFloat) == Ok(PerformanceData(d5, m1, m3, ytd, y1))
  {
    LabelBeforeName(values, "five_days", "5 Day", toFloat);
    LabelBeforeName(values, "one_month", "1 Month", toFloat);
    LabelBeforeName(values, "three_months", "3 Month", toFloat);
    LabelBeforeName(values, "year_to_date", "YTD", toFloat);
    LabelBeforeName(values, "one_year", "1 Year", toFloat);
  }

  // ---------------------------------------------------------------------
  // Values read from a decoded JSON document

  /** A JSON value as a float field accepts it: a number, or a text that converts. */
  function JsonFloat(toFloat: FloatParser): (f: Json -> Option<real>)
    ensures forall n :: f(JNumber(n)) == Some(n)
    ensures forall s :: f(JString(s)) == toFloat(s)
    ensures f(JNull) == None
  {
    (j: Json) => match j
      case JNumber(n) => Some(n)
      case JString(s) => toFloat(s)
      case _ => None
  }

  /** A required `str` field: only a JSON string is accepted. */
  function StrField(j: Json, name: string): (r: Result<string, FieldError>)
    ensures r.Ok? <==> j.JString?
    ensures r.Ok? ==> r.value == j.s
    ensures r.Err? ==> r.error == InvalidValue(name)
  {
    if j.JString? then Ok(j.s) else Err(InvalidValue(name))
  }

  /**
   * `StockValuesData.model_validate` on a decoded object: open, high, low,
   * close under their own names; other keys are ignored.
   */
  function ValidateStockValues(fields: map<string, Json>, toFloat: FloatParser): (r: Result<StockValuesData, seq<FieldError>>)
    ensures r.Ok? <==>
      && FloatFieldOf(fields, "open", ["open"], JsonFloat(toFloat)).Ok?
      && FloatFieldOf(fields, "high", ["high"], JsonFloat(toFloat)).Ok?
      && FloatFieldOf(fields, "low", ["low"], JsonFloat(toFloat)).Ok?
      && FloatFieldOf(fields, "close", ["close"], JsonFloat(toFloat)).Ok?
    ensures r.Err? ==> |r.error| > 0
  {
    var parse := JsonFloat(toFloat);
    var o := FloatFieldOf(fields, "open", ["open"], parse);
    var h := FloatFieldOf(fields, "high", ["high"], parse);
    var l := FloatFieldOf(fields, "low", ["low"], parse);
    var c := FloatFieldOf(fields, "close", ["close"], parse);
    if o.Ok? && h.Ok? && l.Ok? && c.Ok? then
      Ok(StockValuesData(o.value, h.value, l.value, c.value))
    else
      Err(ErrorsOf(o) + ErrorsOf(h) + ErrorsOf(l) + ErrorsOf(c))
  }

  /** Numbers under the four names give exactly those values, whatever else the object holds. */
  lemma StockValuesFromNumbers(fields: map<string, Json>, toFloat: FloatParser,
                               o: real, h: real, l: real, c: real)
    requires "open" in fields && fields["open"] == JNumber(o)
    requires "high" in fields && fields["high"] == JNumber(h)
    requires "low" in fields && fields["low"] == JNumber(l)
    requires "close" in fields && fields["close"] == JNumber(c)
    ensures ValidateStockValues(fields, toFloat) == Ok(StockValuesData(o, h, l, c))
  {
    var parse := JsonFloat(toFloat);
    assert FirstAlias(fields, ["open"]) == Some(JNumber(o));
    assert FirstAlias(fields, ["high"]) == Some(JNumber(h));
    assert FirstAlias(fields, ["low"]) == Some(JNumber(l));
    assert FirstAlias(fields, ["close"]) == Some(JNumber(c));
  }

  // ---------------------------------------------------------------------
  // StockData

  /**
   * What a caller hands to `StockData.model_validate`. The optional fields
   * are `None` when the caller leaves the key out; the nested records are
   * already validated.
   */
  datatype StockDataInput = StockDataInput(
    status: Json,
    purchasedAmount: Option<Json>,
    purchasedStatus: Option<Json>,
    requestData: Json,
    companyCode: Json,
    companyName: string,
    stockValues: StockValuesData,
    performanceData: PerformanceData,
    competitors: Option<seq<CompetitorData>>)

  /**
   * `int | None = None`: left out or null is `None`; a number is accepted
   * when it has no fractional part.
   */
  function OptionalIntField(j: Option<Json>, name: string): (r: Result<Option<int>, FieldError>)
    ensures (j.None? || j == Some(JNull)) ==> r == Ok(None)
    ensures r.Ok? && r.value.Some? ==> j.Some? && j.value.JNumber? && j.value.n == r.value.value as real
    ensures r.Err? ==> r.error == InvalidValue(name)
  {
    match j
    case None => Ok(None)
    case Some(JNull) => Ok(None)
    case Some(JNumber(n)) => if n == n.Floor as real then Ok(Some(n.Floor)) else Err(InvalidValue(name))
    case Some(_) => Err(InvalidValue(name))
  }

  /** `str | None = None`: left out or null is `None`; a string is kept. */
  function OptionalStrField(j: Option<Json>, name: string): (r: Result<Option<string>, FieldError>)
    ensures (j.None? || j == Some(JNull)) ==> r == Ok(None)
    ensures r.Ok? && r.value.Some? ==> j == Some(JString(r.value.value))
    ensures r.Err? ==> r.error == InvalidValue(name) && j.Some? && !j.value.JNull? && !j.value.JString?
  {
    match j
    case None => Ok(None)
    case Some(JNull) => Ok(None)
    case Some(JString(s)) => Ok(Some(s))
    case Some(_) => Err(InvalidValue(name))
  }

  /** A required `date` field given as an ISO calendar date text. */
  function DateField(j: Json, name: string): (r: Result<Dates.Date, FieldError>)
    ensures r.Ok? <==> j.JString? && Dates.ParseIsoDate(j.s).Some?
    ensures r.Ok? ==> Dates.IsoFormat(r.value) == j.s
  {
    if j.JString? then
      match Dates.ParseIsoDate(j.s)
      case Some(d) => Dates.IsoCanonical(j.s); Ok(d)
      case None => Err(InvalidValue(name))
    else Err(InvalidValue(name))
  }

  /**
   * `StockData.model_validate`: the required fields must validate, the two
   * purchase fields default to `None` and the competitors to the empty list.
   */
  function ValidateStockData(input: StockDataInput): (r: Result<StockData, seq<FieldError>>)
    ensures r.Ok? <==>
      && StrField(input.status, "status").Ok?
      && OptionalIntField(input.purchasedAmount, "purchased_amount").Ok?
      && OptionalStrField(input.purchasedStatus, "purchased_status").Ok?
      && DateField(input.requestData, "request_data").Ok?
      && StrField(input.companyCode, "company_code").Ok?
    ensures r.Ok? ==>
      && r.value.companyName == input.companyName
      && r.value.stockValues == input.stockValues
      && r.value.performanceData == input.performanceData
      && r.value.competitors == (if input.competitors.Some? then input.competitors.value else [])
      && JString(r.value.status) == input.status
      && JString(r.value.companyCode) == input.companyCode
      && input.requestData == JString(Dates.IsoFormat(r.value.requestData))
    ensures r.Err? ==> |r.error| > 0
  {
    var status := StrField(input.status, "status");
    var amount := OptionalIntField(input.purchasedAmount, "purchased_amount");
    var pStatus := OptionalStrField(input.purchasedStatus, "purchased_status");
    var date := DateField(input.requestData, "request_data");
    var code := StrField(input.companyCode, "company_code");
    if status.Ok? && amount.Ok? && pStatus.Ok? && date.Ok? && code.Ok? then
      Ok(StockData(status.value, amount.value, pStatus.value, date.value, code.value,
                   input.companyName, input.stockValues, input.performanceData,
                   if input.competitors.Some? then input.competitors.value else []))
    else
      Err(ErrorsOf(status) + ErrorsOf(amount) + ErrorsOf(pStatus) + ErrorsOf(date) + ErrorsOf(code))
  }

  /** Leaving the optional fields out gives their defaults. */
  lemma StockDataDefaults(input: StockDataInput)
    requires input.purchasedAmount.None? && input.purchasedStatus.None? && input.competitors.None?
    requires ValidateStockData(input).Ok?
    ensures ValidateStockData(input).value.purchasedAmount == None
    ensures ValidateStockData(input).value.purchasedStatus == None
    ensures ValidateStockData(input).value.competitors == []
  {
  }

  /** A whole-number amount such as `0.0` becomes the integer; a fractional one is refused. */
  lemma PurchasedAmountWholeNumbers(n: int)
    ensures OptionalIntField(Some(JNumber(n as real)), "purchased_amount") == Ok(Some(n))
    ensures OptionalIntField(Some(JNumber(n as real + 0.5)), "purchased_amount") == Err(InvalidValue("purchased_amount"))
  {
    assert (n as real + 0.5).Floor == n;
  }

  /** A status that is not a string (for instance a key the document lacks) refuses the record. */
  lemma StockDataNeedsStatus(input: StockDataInput)
    requires !input.status.JString?
    ensures ValidateStockData(input).Err?
    ensures InvalidValue("status") in ValidateStockData(input).error
  {
  }
}
