/**
 * The purchase ledger: a database session holding the committed rows of
 * the `purchases` table and the rows added since the last commit, and the
 * repository that records a purchase and totals the amounts bought of a
 * symbol. Whether a commit raises is the environment's choice.
 */
module PurchasesRepository {
  import opened Wrappers

  /** `PurchaseStockAmount`: the request body plus the symbol from the path. */
  datatype PurchaseStockAmount = PurchaseStockAmount(amount: real, companyCode: string)

  /** A row of the `purchases` table (the key and time stamps are left out). */
  datatype Purchase = Purchase(companyCode: string, amount: real)

  /** `Purchases(**purchase_amount.model_dump())`: the dumped keys are the column names. */
  function RowOf(p: PurchaseStockAmount): (row: Purchase)
    ensures row.companyCode == p.companyCode && row.amount == p.amount
  {
    Purchase(p.companyCode, p.amount)
  }

  datatype DbError = CommitFailed   // the exception a failed commit raises

  // ---------------------------------------------------------------------
  // The query

  /** The amounts of the rows for `code`, in table order. */
  function AmountsOf(rows: seq<Purchase>, code: string): (xs: seq<real>)
    ensures |xs| <= |rows|
  {
    if |rows| == 0 then []
    else AmountsOf(rows[..|rows| - 1], code)
         + (if rows[|rows| - 1].companyCode == code then [rows[|rows| - 1].amount] else [])
  }

  function Sum(xs: seq<real>): real {
    if |xs| == 0 then 0.0 else Sum(xs[..|xs| - 1]) + xs[|xs| - 1]
  }

  /** `SELECT sum(amount) FROM purchases WHERE company_code = code`: NULL when no row matches. */
  function SqlSum(rows: seq<Purchase>, code: string): Option<real> {
    var xs := AmountsOf(rows, code);
    if |xs| == 0 then None else Some(Sum(xs))
  }

  /** What `get_purchases_total_amount_by_symbol` makes of the query's answer. */
  function TotalOf(sum: Option<real>): (t: real)
    ensures sum.None? ==> t == 0.0
    ensures sum.Some? ==> t == sum.value
  {
    if sum.Some? then sum.value else 0.0
  }

  /** The total amount bought of `code`. */
  function Total(rows: seq<Purchase>, code: string): real {
    TotalOf(SqlSum(rows, code))
  }

  /** A row for another symbol adds no amount; a row for `code` adds its own. */
  lemma AmountsOfAppend(rows: seq<Purchase>, p: Purchase, code: string)
    ensures AmountsOf(rows + [p], code)
         == AmountsOf(rows, code) + (if p.companyCode == code then [p.amount] else [])
  {
    assert (rows + [p])[..|rows|] == rows;
  }

  /** The query answers NULL exactly when no row is for the symbol. */
  lemma {:induction false} SqlSumNullIff(rows: seq<Purchase>, code: string)
    ensures SqlSum(rows, code).None? <==> forall i :: 0 <= i < |rows| ==> rows[i].companyCode != code
  {
    NoAmountsIff(rows, code);
  }

  lemma {:induction false} NoAmountsIff(rows: seq<Purchase>, code: string)
    ensures AmountsOf(rows, code) == [] <==> forall i :: 0 <= i < |rows| ==> rows[i].companyCode != code
    decreases |rows|
  {
    if |rows| > 0 {
      var init := rows[..|rows| - 1];
      NoAmountsIff(init, code);
      assert forall i :: 0 <= i < |init| ==> init[i] == rows[i];
    }
  }

  /**
   * Recording a purchase raises the total of its own symbol by its amount
   * and leaves every other symbol's total as it was.
   */
  lemma TotalAfterPurchase(rows: seq<Purchase>, p: Purchase, code: string)
    ensures Total(rows + [p], code) == Total(rows, code) + (if p.companyCode == code then p.amount else 0.0)
  {
    AmountsOfAppend(rows, p, code);
    var xs, ys := AmountsOf(rows, code), AmountsOf(rows + [p], code);
    if p.companyCode == code {
      assert ys == xs + [p.amount];
      assert ys[..|xs|] == xs;
      assert Sum(ys) == Sum(xs) + p.amount;
    } else {
      assert ys == xs;
    }
  }

  /** The total of a symbol with no rows is 0.0. */
  lemma NoPurchasesTotalZero(rows: seq<Purchase>, code: string)
    requires forall i :: 0 <= i < |rows| ==> rows[i].companyCode != code
    ensures Total(rows, code) == 0.0
  {
    SqlSumNullIff(rows, code);
  }

  /** The total counts exactly the amounts of the symbol's rows: they add up to it. */
  lemma {:induction false} TotalIsSumOfMatches(rows: seq<Purchase>, code: string)
    ensures Total(rows, code) == Sum(AmountsOf(rows, code))
    ensures forall x :: x in AmountsOf(rows, code) ==> exists i :: 0 <= i < |rows| && rows[i] == Purchase(code, x)
    decreases |rows|
  {
    if |rows| > 0 {
      var init, last := rows[..|rows| - 1], rows[|rows| - 1];
      TotalIsSumOfMatches(init, code);
      assert rows == init + [last];
      forall x | x in AmountsOf(rows, code) ensures exists i :: 0 <= i < |rows| && rows[i] == Purchase(code, x) {
        if x in AmountsOf(init, code) {
          var i :| 0 <= i < |init| && init[i] == Purchase(code, x);
          assert rows[i] == init[i];
        } else {
          assert rows[|rows| - 1] == Purchase(code, x);
        }
      }
    }
  }

  // ---------------------------------------------------------------------
  // State

  /**
   * A database session: `table` holds the committed rows, `pending` the rows
   * added since; `commitFails(n)` says whether the n-th commit raises.
   */
  class DbSession {
    var table: seq<Purchase>
    var pending: seq<Purchase>
    var commits: nat
    const commitFails: nat -> bool

    constructor (table: seq<Purchase>, commitFails: nat -> bool)
      ensures this.table == table && pending == [] && commits == 0 && this.commitFails == commitFails
    {
      this.table := table;
      pending := [];
      commits := 0;
      this.commitFails := commitFails;
    }

    /** `session.add`: the row waits for the next commit. */
    method Add(row: Purchase)
      modifies this
      ensures pending == old(pending) + [row]
      ensures table == old(table) && commits == old(commits)
    {
      pending := pending + [row];
    }

    /** `session.commit`: the waiting rows join the table, or the commit raises and nothing is stored. */
    method Commit() returns (r: Result<(), DbError>)
      modifies this
      ensures commits == old(commits) + 1
      ensures r.Ok? <==> !commitFails(old(commits))
      ensures r.Ok? ==> table == old(table) + old(pending) && pending == []
      ensures r.Err? ==> r.error == CommitFailed && table == old(table) && pending == old(pending)
    {
      if commitFails(commits) {
        r := Err(CommitFailed);
      } else {
        table := table + pending;
        pending := [];
        r := Ok(());
      }
      commits := commits + 1;
    }

    /** `session.scalar` of the sum query over the committed rows. */
    method ScalarSum(code: string) returns (sum: Option<real>)
      ensures sum == SqlSum(table, code)
    {
      sum := SqlSum(table, code);
    }
  }

  class PurchasesRepository {
    const session: DbSession

    constructor (session: DbSession)
      ensures this.session == session
    {
      this.session := session;
    }

    /**
     * `purchase_stock`: one row carrying the purchase's symbol and amount is
     * added, then one commit; a commit that raises propagates.
     */
    method PurchaseStock(purchase: PurchaseStockAmount) returns (r: Result<(), DbError>)
      modifies session
      ensures session.commits == old(session.commits) + 1
      ensures r.Ok? <==> !session.commitFails(old(session.commits))
      ensures r.Ok? ==> session.table == old(session.table) + old(session.pending) + [RowOf(purchase)]
                        && session.pending == []
      ensures r.Err? ==> r.error == CommitFailed && session.table == old(session.table)
                         && session.pending == old(session.pending) + [RowOf(purchase)]
    {
      session.Add(RowOf(purchase));
      r := session.Commit();
    }

    /** `get_purchases_total_amount_by_symbol`: the sum of the symbol's amounts, 0.0 when it has none. */
    method GetPurchasesTotalAmountBySymbol(symbol: string) returns (total: real)
      ensures total == Total(session.table, symbol)
      ensures SqlSum(session.table, symbol).None? ==> total == 0.0
      ensures SqlSum(session.table, symbol).Some? ==> total == SqlSum(session.table, symbol).value
    {
      var sum := session.ScalarSum(symbol);
      total := if sum.Some? then sum.value else 0.0;
    }
  }

  /** A first purchase of 100.0 AAPL on an empty, working ledger makes the AAPL total 100.0. */
  lemma FirstPurchaseTotal()
    ensures Total([] + [RowOf(PurchaseStockAmount(100.0, "AAPL"))], "AAPL") == 100.0
  {
    TotalAfterPurchase([], RowOf(PurchaseStockAmount(100.0, "AAPL")), "AAPL");
    NoPurchasesTotalZero([], "AAPL");
  }
}
