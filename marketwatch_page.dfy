/**
 * What the scraper reads off a parsed MarketWatch stock page: the
 * performance table, the competitors table and the company name. The HTML
 * tree is abstracted to the elements these reads visit, each of which may
 * be absent.
 */
module MarketWatchPage {
  import opened Wrappers
  import CurrencyUtils
  import opened StockResponse

  /** A `tr.table__row` of the performance table: its first `td` and first `li` texts. */
  datatype PerformanceRow = PerformanceRow(firstCell: Option<string>, firstListItem: Option<string>)

  /** A `tr` of the competitors table body: the text of its `a.link` and of its `td` cells. */
  datatype CompetitorRow = CompetitorRow(link: Option<string>, cells: seq<string>)

  /**
   * The parsed page. `performance` is the rows of `div.performance` (`None`
   * when there is no such div); `competitors` is `None` without
   * `div.Competitors`, `Some(None)` when that div has no `tbody`;
   * `companyName` is the text of `h1.company__name`.
   */
  datatype StockPage = StockPage(
    performance: Option<seq<PerformanceRow>>,
    competitors: Option<Option<seq<CompetitorRow>>>,
    companyName: Option<string>)

  /** Why a read of the page fails. */
  datatype ScrapeError =
    | MissingElement(selector: string)   // an attribute read on a `find` that found nothing
    | RowTooShort                        // `find_all("td")[2]` on a row with fewer cells
    | Currency(error: CurrencyUtils.CurrencyError)
    | Validation(errors: seq<FieldError>)

  // ---------------------------------------------------------------------
  // Performance

  /** `text.replace("%", "")`. */
  function RemovePercent(s: string): (r: string)
    ensures forall i :: 0 <= i < |r| ==> r[i] != '%'
    ensures |r| <= |s|
  {
    if |s| == 0 then ""
    else if s[0] == '%' then RemovePercent(s[1..])
    else [s[0]] + RemovePercent(s[1..])
  }

  /** Removing the signs part by part is removing them from the whole. */
  lemma {:induction false} RemovePercentAppend(a: string, b: string)
    ensures RemovePercent(a + b) == RemovePercent(a) + RemovePercent(b)
  {
    if |a| > 0 {
      assert (a + b)[1..] == a[1..] + b;
      RemovePercentAppend(a[1..], b);
    } else {
      assert a + b == b;
    }
  }

  /** A text without a percent sign is unchanged, so removal is idempotent. */
  lemma {:induction false} RemovePercentKeepsClean(s: string)
    requires forall i :: 0 <= i < |s| ==> s[i] != '%'
    ensures RemovePercent(s) == s
  {
    if |s| > 0 {
      RemovePercentKeepsClean(s[1..]);
    }
  }

  /** Exactly the percent signs go: every other character stays, in order. */
  lemma {:induction false} RemovePercentKeepsOthers(s: string, c: char)
    requires c != '%'
    ensures multiset(RemovePercent(s))[c] == multiset(s)[c]
  {
    if |s| > 0 {
      assert s == [s[0]] + s[1..];
      RemovePercentKeepsOthers(s[1..], c);
    }
  }

  /** The labels that rows carry in their first cell. */
  function Labels(rows: seq<PerformanceRow>): set<string> {
    set i | 0 <= i < |rows| && rows[i].firstCell.Some? :: rows[i].firstCell.value
  }

  /**
   * The dict comprehension over the performance rows: label → value with
   * the percent sign removed. Rows are read in order, so a later row with
   * the same label overwrites an earlier one; the first row without a `td`
   * or an `li` fails the read.
   */
  function PerformanceMap(rows: seq<PerformanceRow>): (r: Result<map<string, string>, ScrapeError>)
    ensures r.Ok? <==> forall i :: 0 <= i < |rows| ==> rows[i].firstCell.Some? && rows[i].firstListItem.Some?
    ensures r.Ok? ==> r.value.Keys == Labels(rows)
    ensures r.Err? ==> r.error == MissingElement("td") || r.error == MissingElement("li")
  {
    if |rows| == 0 then Ok(map[])
    else
      var init := rows[..|rows| - 1];
      var last := rows[|rows| - 1];
      assert forall i :: 0 <= i < |init| ==> init[i] == rows[i];
      match PerformanceMap(init)
      case Err(e) => Err(e)
      case Ok(m) =>
        if last.firstCell.None? then Err(MissingElement("td"))
        else if last.firstListItem.None? then Err(MissingElement("li"))
        else
          assert Labels(rows) == Labels(init) + {last.firstCell.value} by {
            forall x | x in Labels(rows)
              ensures x in Labels(init) + {last.firstCell.value}
            {
              var i :| 0 <= i < |rows| && rows[i].firstCell.Some? && rows[i].firstCell.value == x;
              if i < |init| {
                assert init[i].firstCell.value == x;
              }
            }
          }
          Ok(m[last.firstCell.value := RemovePercent(last.firstListItem.value)])
  }

  /**
   * The value stored under a label is the text of the LAST row carrying
   * that label, with its percent signs removed.
   */
  lemma {:induction false} PerformanceLastRowWins(rows: seq<PerformanceRow>, i: nat)
    requires PerformanceMap(rows).Ok?
    requires i < |rows|
    requires forall j :: i < j < |rows| ==> rows[j].firstCell != rows[i].firstCell
    ensures rows[i].firstCell.value in PerformanceMap(rows).value
    ensures PerformanceMap(rows).value[rows[i].firstCell.value] == RemovePercent(rows[i].firstListItem.value)
  {
    var init := rows[..|rows| - 1];
    assert forall k :: 0 <= k < |init| ==> init[k] == rows[k];
    if i < |rows| - 1 {
      PerformanceLastRowWins(init, i);
    }
  }

  /** Reading the performance table of a page, then validating it as a record. */
  function GetPerformance(page: StockPage, toFloat: FloatParser): (r: Result<PerformanceData, ScrapeError>)
    ensures page.performance.None? ==> r == Err(MissingElement("div.performance"))
    ensures page.performance.Some? && PerformanceMap(page.performance.value).Ok? ==>
      r == (match ValidatePerformance(PerformanceMap(page.performance.value).value, toFloat)
            case Ok(p) => Ok(p)
            case Err(es) => Err(Validation(es)))
    ensures page.performance.Some? && PerformanceMap(page.performance.value).Err? ==>
      r == Err(PerformanceMap(page.performance.value).error)
  {
    match page.performance
    case None => Err(MissingElement("div.performance"))
    case Some(rows) =>
      match PerformanceMap(rows)
      case Err(e) => Err(e)
      case Ok(m) =>
        match ValidatePerformance(m, toFloat)
        case Ok(p) => Ok(p)
        case Err(es) => Err(Validation(es))
  }

  /**
   * A table of the five labelled rows (in the page's order) whose texts,
   * once the percent sign is removed, convert: the record holds the
   * converted values.
   */
  lemma PerformanceOfFiveRows(page: StockPage, toFloat: FloatParser, texts: seq<string>, values: seq<real>)
    requires |texts| == 5 && |values| == 5
    requires page.performance == Some([
      PerformanceRow(Some("5 Day"), Some(texts[0])), PerformanceRow(Some("1 Month"), Some(texts[1])),
      PerformanceRow(Some("3 Month"), Some(texts[2])), PerformanceRow(Some("YTD"), Some(texts[3])),
      PerformanceRow(Some("1 Year"), Some(texts[4]))])
    requires forall i :: 0 <= i < 5 ==> toFloat(RemovePercent(texts[i])) == Some(values[i])
    ensures GetPerformance(page, toFloat) == Ok(PerformanceData(values[0], values[1], values[2], values[3], values[4]))
  {
    var rows := page.performance.value;
    assert PerformanceMap(rows).Ok?;
    PerformanceLastRowWins(rows, 0);
    PerformanceLastRowWins(rows, 1);
    PerformanceLastRowWins(rows, 2);
    PerformanceLastRowWins(rows, 3);
    PerformanceLastRowWins(rows, 4);
    var m := PerformanceMap(rows).value;
    PerformanceFromLabels(m, toFloat, values[0], values[1], values[2], values[3], values[4]);
  }

  // ---------------------------------------------------------------------
  // Competitors

  /**
   * One competitor row: the link text as the name (read first), then the
   * market cap parsed from the third cell.
   */
  function CompetitorOf(row: CompetitorRow): (r: Result<CompetitorData, ScrapeError>)
    ensures row.link.None? ==> r == Err(MissingElement("a.link"))
    ensures row.link.Some? && |row.cells| < 3 ==> r == Err(RowTooShort)
    ensures r.Ok? ==> r.value.name == row.link.value && |row.cells| >= 3
                      && CurrencyUtils.ConvertCurrencyString(row.cells[2]).Ok?
                      && r.value.marketCap.currency == CurrencyUtils.ConvertCurrencyString(row.cells[2]).value.currency
                      && r.value.marketCap.value == CurrencyUtils.Amount(CurrencyUtils.ConvertCurrencyString(row.cells[2]).value.value)
  {
    if row.link.None? then Err(MissingElement("a.link"))
    else if |row.cells| < 3 then Err(RowTooShort)
    else
      match CurrencyUtils.ConvertCurrencyString(row.cells[2])
      case Err(e) => Err(Currency(e))
      case Ok(mc) => Ok(CompetitorData(row.link.value, MarketCapData(mc.currency, CurrencyUtils.Amount(mc.value))))
  }

  /**
   * The list comprehension over the competitor rows: one record per row, in
   * row order; the first row that fails fails the whole read with its error.
   */
  function Competitors(rows: seq<CompetitorRow>): (r: Result<seq<CompetitorData>, ScrapeError>)
    ensures r.Ok? ==> |r.value| == |rows| && forall i :: 0 <= i < |rows| ==> CompetitorOf(rows[i]) == Ok(r.value[i])
    ensures r.Ok? <==> forall i :: 0 <= i < |rows| ==> CompetitorOf(rows[i]).Ok?
    ensures r.Err? ==> exists i :: 0 <= i < |rows| && CompetitorOf(rows[i]) == Err(r.error)
                                 && forall j :: 0 <= j < i ==> CompetitorOf(rows[j]).Ok?
  {
    Traverse(rows, CompetitorOf)
  }

  /** Applies `f` to every element in order, stopping at the first error. */
  function Traverse<A, B, E>(xs: seq<A>, f: A -> Result<B, E>): (r: Result<seq<B>, E>)
    ensures r.Ok? ==> |r.value| == |xs| && forall i :: 0 <= i < |xs| ==> f(xs[i]) == Ok(r.value[i])
    ensures r.Ok? <==> forall i :: 0 <= i < |xs| ==> f(xs[i]).Ok?
    ensures r.Err? ==> exists i :: 0 <= i < |xs| && f(xs[i]) == Err(r.error)
                                 && forall j :: 0 <= j < i ==> f(xs[j]).Ok?
  {
    if |xs| == 0 then Ok([])
    else
      assert forall i :: 1 <= i < |xs| ==> xs[1..][i - 1] == xs[i];
      match f(xs[0])
      case Err(e) => Err(e)
      case Ok(y) =>
        match Traverse(xs[1..], f)
        case Err(e) => Err(e)
        case Ok(ys) => Ok([y] + ys)
  }

  /** The competitors of the page. */
  function GetCompetitors(page: StockPage): (r: Result<seq<CompetitorData>, ScrapeError>)
    ensures page.competitors.None? ==> r == Err(MissingElement("div.Competitors"))
    ensures page.competitors == Some(None) ==> r == Err(MissingElement("tbody"))
    ensures page.competitors.Some? && page.competitors.value.Some? ==> r == Competitors(page.competitors.value.value)
  {
    match page.competitors
    case None => Err(MissingElement("div.Competitors"))
    case Some(None) => Err(MissingElement("tbody"))
    case Some(Some(rows)) => Competitors(rows)
  }

  /** A row reading "$3.16T" in its third cell gives 3.16 trillion dollars. */
  lemma CompetitorTrillion(row: CompetitorRow, name: string)
    requires row.link == Some(name) && |row.cells| >= 3 && row.cells[2] == "$3.16T"
    ensures CompetitorOf(row) == Ok(CompetitorData(name, MarketCapData("$", 3160000000000.0)))
  {
    CurrencyUtils.ExampleTrillion(row.cells[2]);
  }

  /** The company name of the page. */
  function GetCompanyName(page: StockPage): (r: Result<string, ScrapeError>)
    ensures page.companyName.None? <==> r == Err(MissingElement("h1.company__name"))
    ensures page.companyName.Some? ==> r == Ok(page.companyName.value)
  {
    match page.companyName
    case None => Err(MissingElement("h1.company__name"))
    case Some(name) => Ok(name)
  }
}
