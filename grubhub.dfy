/** The GrubHub half of the dashboard: the period summary tables, their
    sidebar filter (both ends of a summary period must lie in the selected
    range), the financial and operations cards, the per-store roll-up with
    its unguarded derived columns, and the top-15 product rankings. */
module GrubHub {
  import opened Common
  import opened Tables
  import opened StoreNames
  import opened Aggregates
  import opened Grouping
  import opened Ranking

  /** One row of the financial summary: a store's totals over one period.
      Dates were parsed with `errors='coerce'`, so an unreadable date is NaT. */
  datatype FinancialSummaryRow = FinancialSummaryRow(
    storeName: string,
    startDate: Option<Day>,
    endDate: Option<Day>,
    totalOrders: int,
    subtotalSales: real,
    merchantNetTotal: real,
    commission: real,
    tip: real)

  /** One row of the operations summary. */
  datatype OperationsSummaryRow = OperationsSummaryRow(
    storeName: string,
    startDate: Option<Day>,
    endDate: Option<Day>,
    totalOrders: int,
    totalCanceledOrders: int,
    newCustomerOrders: int,
    ghPlusCustomerOrders: int)

  /** One row of the product mix. */
  datatype ProductMixRow = ProductMixRow(menuItemName: string, quantitySold: int, itemSales: real)

  /** The cells the filter reads from a summary row. */
  datatype Period = Period(store: string, start: Option<Day>, end: Option<Day>)

  function FinancialPeriod(r: FinancialSummaryRow): Period { Period(r.storeName, r.startDate, r.endDate) }
  function OperationsPeriod(r: OperationsSummaryRow): Period { Period(r.storeName, r.startDate, r.endDate) }

  /** Which of the columns the filter consults a loaded table actually has. */
  datatype Columns = Columns(startDate: bool, endDate: bool, storeName: bool)

  /** A loaded CSV: its column set (as far as the filter cares) and its rows. */
  datatype Table<T> = Table(columns: Columns, rows: seq<T>)

  /** The sidebar selections. A missing financial summary leaves no date
      range, modelled as the empty sequence. */
  datatype Selection = Selection(dateRange: seq<Day>, store: string)

  /** Indexing a column the table does not have. */
  datatype FilterError = KeyError(column: string)

  const EndDateColumn: string := "end_date"

  // ---------------------------------------------------------------- filter

  /** The date clause runs when a pair of dates is selected and the table has
      a start date column; the end date column is not checked first. */
  predicate DateClauseActive(sel: Selection, cols: Columns)
  {
    |sel.dateRange| == 2 && cols.startDate
  }

  predicate StoreClauseActive(sel: Selection, cols: Columns)
  {
    sel.store != AllOption && cols.storeName
  }

  /** Both ends of the period inside [lo, hi]; a NaT end compares false. */
  predicate WithinRange(lo: Day, hi: Day, p: Period)
  {
    p.start.Some? && lo <= p.start.value && p.end.Some? && p.end.value <= hi
  }

  predicate GrubHubMatch(sel: Selection, cols: Columns, p: Period)
  {
    && (DateClauseActive(sel, cols) ==> WithinRange(sel.dateRange[0], sel.dateRange[1], p))
    && (StoreClauseActive(sel, cols) ==> p.store == sel.store)
  }

  function GrubHubPredicate<T>(sel: Selection, cols: Columns, period: T -> Period): T -> bool
  {
    (x: T) => GrubHubMatch(sel, cols, period(x))
  }

  /** The summary table as `apply_grubhub_filters` leaves it, or the KeyError
      it raises when the date clause runs on a table without `end_date`. */
  function GrubHubFiltered<T(!new)>(t: Table<T>, sel: Selection, period: T -> Period): (r: Result<seq<T>, FilterError>)
    ensures r.Err? <==> DateClauseActive(sel, t.columns) && !t.columns.endDate
    ensures r.Err? ==> r.error == KeyError(EndDateColumn)
    ensures r.Ok? ==> |r.value| <= |t.rows|
    ensures r.Ok? ==> forall x :: x in r.value <==> x in t.rows && GrubHubMatch(sel, t.columns, period(x))
  {
    if DateClauseActive(sel, t.columns) && !t.columns.endDate then Err(KeyError(EndDateColumn))
    else Ok(Where(t.rows, GrubHubPredicate(sel, t.columns, period)))
  }

  /** The filter as the dashboard runs it: copy, then narrow by the date
      clause and by the store clause, each only when it applies. */
  method ApplyGrubHubFilters<T(!new)>(t: Table<T>, sel: Selection, period: T -> Period)
    returns (r: Result<seq<T>, FilterError>)
    ensures r == GrubHubFiltered(t, sel, period)
  {
    var filtered := t.rows;
    ghost var byDate := (x: T) =>
      DateClauseActive(sel, t.columns) ==> WithinRange(sel.dateRange[0], sel.dateRange[1], period(x));
    if |sel.dateRange| == 2 && t.columns.startDate {
      if !t.columns.endDate {
        return Err(KeyError(EndDateColumn));
      }
      var lo, hi := sel.dateRange[0], sel.dateRange[1];
      var within := (x: T) => WithinRange(lo, hi, period(x));
      WhereSame(t.rows, within, byDate);
      filtered := Where(filtered, within);
    } else {
      WhereAll(t.rows, byDate);
    }
    if sel.store != AllOption && t.columns.storeName {
      var store := sel.store;
      var atStore := (x: T) => period(x).store == store;
      WhereAnd(t.rows, byDate, atStore, GrubHubPredicate(sel, t.columns, period));
      filtered := Where(filtered, atStore);
    } else {
      WhereSame(t.rows, byDate, GrubHubPredicate(sel, t.columns, period));
    }
    return Ok(filtered);
  }

  /** The filter returns a subsequence of the table; every kept row starts on
      or after the range start and ends on or before the range end when the
      date clause runs, and belongs to the selected store when the store
      clause runs. */
  lemma GrubHubFilterSound<T(!new)>(t: Table<T>, sel: Selection, period: T -> Period)
    requires GrubHubFiltered(t, sel, period).Ok?
    ensures IsSubsequence(GrubHubFiltered(t, sel, period).value, t.rows)
    ensures forall x :: x in GrubHubFiltered(t, sel, period).value ==>
      && (DateClauseActive(sel, t.columns) ==>
            && period(x).start.Some? && sel.dateRange[0] <= period(x).start.value
            && period(x).end.Some? && period(x).end.value <= sel.dateRange[1])
      && (StoreClauseActive(sel, t.columns) ==> period(x).store == sel.store)
  {
    WhereIsSubsequence(t.rows, GrubHubPredicate(sel, t.columns, period));
  }

  /** A clause that does not apply (no date pair, no start date column, store
      'All' or no store column) constrains nothing: with neither clause
      active the table comes back whole. */
  lemma GrubHubFilterInactive<T(!new)>(t: Table<T>, sel: Selection, period: T -> Period)
    requires !DateClauseActive(sel, t.columns) && !StoreClauseActive(sel, t.columns)
    ensures GrubHubFiltered(t, sel, period) == Ok(t.rows)
  {
    WhereAll(t.rows, GrubHubPredicate(sel, t.columns, period));
  }

  /** Rows whose period has both dates. */
  predicate HasBothDates(p: Period)
  {
    p.start.Some? && p.end.Some?
  }

  function Dated<T>(period: T -> Period): T -> bool
  {
    (x: T) => HasBothDates(period(x))
  }

  function StartOf<T>(period: T -> Period): T -> Option<Day> { (x: T) => period(x).start }
  function EndOf<T>(period: T -> Period): T -> Option<Day> { (x: T) => period(x).end }

  /** The default selection, [earliest start date, latest end date] with the
      store at 'All', keeps exactly the rows whose dates both parsed: a row
      with a NaT start or end date is dropped even though nothing was chosen. */
  lemma GrubHubDefaultRangeDropsUndated<T(!new)>(t: Table<T>, sel: Selection, period: T -> Period)
    requires t.columns.startDate && t.columns.endDate
    requires sel.store == AllOption && |sel.dateRange| == 2
    requires Earliest(t.rows, StartOf(period)) == Some(sel.dateRange[0])
    requires Latest(t.rows, EndOf(period)) == Some(sel.dateRange[1])
    ensures GrubHubFiltered(t, sel, period) == Ok(Where(t.rows, Dated(period)))
  {
    forall x | x in t.rows ensures GrubHubPredicate(sel, t.columns, period)(x) == Dated(period)(x) {
      assert StartOf(period)(x) == period(x).start && EndOf(period)(x) == period(x).end;
    }
    WhereSame(t.rows, GrubHubPredicate(sel, t.columns, period), Dated(period));
  }

  // ---------------------------------------------------------------- financial cards

  function TotalOrders(r: FinancialSummaryRow): real { r.totalOrders as real }
  function SubtotalSales(r: FinancialSummaryRow): real { r.subtotalSales }
  function MerchantNetTotal(r: FinancialSummaryRow): real { r.merchantNetTotal }
  function Commission(r: FinancialSummaryRow): real { r.commission }
  function Tip(r: FinancialSummaryRow): real { r.tip }

  datatype FinancialCards = FinancialCards(
    totalOrders: real,
    totalSales: real,
    netTotal: real,
    averageOrderValue: real,
    totalCommission: real,
    commissionRate: real,
    totalTips: real)

  /** The financial cards, shown only for a non-empty filtered summary.
      Average order value is total sales over total orders; commission is
      reported as a magnitude and as a percentage of sales; both ratios are
      0 when their denominator is not positive. */
  function FinancialCardsOf(filtered: seq<FinancialSummaryRow>): (c: Option<FinancialCards>)
    ensures c.None? <==> filtered == []
    ensures c.Some? ==>
      && c.value.totalOrders == Sum(filtered, TotalOrders)
      && c.value.totalSales == Sum(filtered, SubtotalSales)
      && c.value.netTotal == Sum(filtered, MerchantNetTotal)
      && c.value.totalCommission == Abs(Sum(filtered, Commission))
      && c.value.totalTips == Sum(filtered, Tip)
    ensures c.Some? ==> c.value.totalOrders <= 0.0 ==> c.value.averageOrderValue == 0.0
    ensures c.Some? ==> c.value.totalOrders > 0.0 ==> c.value.averageOrderValue * c.value.totalOrders == c.value.totalSales
    ensures c.Some? ==> c.value.totalCommission >= 0.0
    ensures c.Some? ==> c.value.totalSales <= 0.0 ==> c.value.commissionRate == 0.0
    ensures c.Some? ==> c.value.totalSales > 0.0 ==>
      c.value.commissionRate * c.value.totalSales == 100.0 * c.value.totalCommission
  {
    if filtered == [] then None
    else
      var orders := Sum(filtered, TotalOrders);
      var sales := Sum(filtered, SubtotalSales);
      var commission := Abs(Sum(filtered, Commission));
      Some(FinancialCards(
        orders,
        sales,
        Sum(filtered, MerchantNetTotal),
        SafeRatio(sales, orders),
        commission,
        Percent(commission, sales),
        Sum(filtered, Tip)))
  }

  /** Two periods of store X with 10 and 20 orders and sales 100 and 300:
      the GrubHub average order value is total sales over total orders,
      400/30, not the mean of the per-period averages. */
  lemma GrubHubAverageOrderValueScenario()
    ensures var rows := [
        FinancialSummaryRow("X", Some(0), Some(6), 10, 100.0, 0.0, 0.0, 0.0),
        FinancialSummaryRow("X", Some(7), Some(13), 20, 300.0, 0.0, 0.0, 0.0)];
      FinancialCardsOf(rows).Some? && FinancialCardsOf(rows).value.averageOrderValue == 40.0 / 3.0
  {
    var rows := [
        FinancialSummaryRow("X", Some(0), Some(6), 10, 100.0, 0.0, 0.0, 0.0),
        FinancialSummaryRow("X", Some(7), Some(13), 20, 300.0, 0.0, 0.0, 0.0)];
    assert rows[1..] == [rows[1]] && [rows[1]][1..] == [];
    assert Sum(rows, SubtotalSales) == 400.0;
    assert Sum(rows, TotalOrders) == 30.0;
  }

  // ---------------------------------------------------------------- operations cards

  function OpsTotalOrders(r: OperationsSummaryRow): real { r.totalOrders as real }
  function CanceledOrders(r: OperationsSummaryRow): real { r.totalCanceledOrders as real }
  function NewCustomerOrders(r: OperationsSummaryRow): real { r.newCustomerOrders as real }
  function GhPlusOrders(r: OperationsSummaryRow): real { r.ghPlusCustomerOrders as real }

  datatype OperationsCards = OperationsCards(
    totalOrders: real,
    cancellationRate: real,
    newCustomerRate: real,
    ghPlusRate: real)

  /** The operations cards, shown only for a non-empty filtered summary:
      three percentages of total orders, each 0 when there are no orders. */
  function OperationsCardsOf(filtered: seq<OperationsSummaryRow>): (c: Option<OperationsCards>)
    ensures c.None? <==> filtered == []
    ensures c.Some? ==> c.value.totalOrders == Sum(filtered, OpsTotalOrders)
    ensures c.Some? && c.value.totalOrders <= 0.0 ==>
      c.value.cancellationRate == c.value.newCustomerRate == c.value.ghPlusRate == 0.0
    ensures c.Some? && c.value.totalOrders > 0.0 ==>
      && c.value.cancellationRate * c.value.totalOrders == 100.0 * Sum(filtered, CanceledOrders)
      && c.value.newCustomerRate * c.value.totalOrders == 100.0 * Sum(filtered, NewCustomerOrders)
      && c.value.ghPlusRate * c.value.totalOrders == 100.0 * Sum(filtered, GhPlusOrders)
  {
    if filtered == [] then None
    else
      var orders := Sum(filtered, OpsTotalOrders);
      Some(OperationsCards(
        orders,
        Percent(Sum(filtered, CanceledOrders), orders),
        Percent(Sum(filtered, NewCustomerOrders), orders),
        Percent(Sum(filtered, GhPlusOrders), orders)))
  }

  /** Counts that are parts of each period's orders give rates between 0 and
      100 percent. */
  lemma OperationsRatesBounded(filtered: seq<OperationsSummaryRow>)
    requires filtered != []
    requires forall r :: r in filtered ==>
      && 0 <= r.totalCanceledOrders <= r.totalOrders
      && 0 <= r.newCustomerOrders <= r.totalOrders
      && 0 <= r.ghPlusCustomerOrders <= r.totalOrders
    ensures var c := OperationsCardsOf(filtered).value;
      && 0.0 <= c.cancellationRate <= 100.0
      && 0.0 <= c.newCustomerRate <= 100.0
      && 0.0 <= c.ghPlusRate <= 100.0
  {
    var orders := Sum(filtered, OpsTotalOrders);
    PartOfOrders(filtered, CanceledOrders);
    PartOfOrders(filtered, NewCustomerOrders);
    PartOfOrders(filtered, GhPlusOrders);
    PercentBounded(Sum(filtered, CanceledOrders), orders);
    PercentBounded(Sum(filtered, NewCustomerOrders), orders);
    PercentBounded(Sum(filtered, GhPlusOrders), orders);
  }

  /** A per-row part of the orders sums to a part of the total orders. */
  lemma PartOfOrders(filtered: seq<OperationsSummaryRow>, part: OperationsSummaryRow -> real)
    requires forall r :: r in filtered ==> 0.0 <= part(r) <= OpsTotalOrders(r)
    ensures 0.0 <= Sum(filtered, part) <= Sum(filtered, OpsTotalOrders)
  {
    SumAtLeast(filtered, part, 0.0);
    SumMonotone(filtered, part, OpsTotalOrders);
  }

  // ---------------------------------------------------------------- store roll-up

  /** One row of the store performance table: the summed columns of
      `groupby('store_name').agg(...)` and the two columns derived from them
      by plain column division, which pandas leaves as inf or NaN where the
      denominator is 0. */
  datatype StorePerformanceRow = StorePerformanceRow(
    storeName: string,
    totalOrders: real,
    subtotalSales: real,
    merchantNetTotal: real,
    commission: real,
    averageOrderValue: Quotient,
    commissionRate: Quotient)

  function StoreTotals(g: Group<FinancialSummaryRow>): (row: StorePerformanceRow)
    ensures row.storeName == g.key
    ensures row.averageOrderValue.Finite? <==> row.totalOrders != 0.0
    ensures row.averageOrderValue.Finite? ==> row.averageOrderValue.value * row.totalOrders == row.subtotalSales
    ensures row.commissionRate == Divide(100.0 * Abs(row.commission), row.subtotalSales)
    ensures row.commissionRate.Finite? <==> row.subtotalSales != 0.0
    ensures row.commissionRate.Finite? ==>
      row.commissionRate.value * row.subtotalSales == 100.0 * Abs(row.commission)
  {
    var orders := Sum(g.rows, TotalOrders);
    var sales := Sum(g.rows, SubtotalSales);
    var commission := Sum(g.rows, Commission);
    var share := Divide(Abs(commission), sales);
    ScaleDivide(Abs(commission), sales, 100.0);
    StorePerformanceRow(g.key, orders, sales, Sum(g.rows, MerchantNetTotal), commission,
      Divide(sales, orders), Scale(share, 100.0))
  }

  function StoreName(r: StorePerformanceRow): string { r.storeName }
  function StoreOrders(r: StorePerformanceRow): real { r.totalOrders }
  function StoreSales(r: StorePerformanceRow): real { r.subtotalSales }

  function StorePerformance(filtered: seq<FinancialSummaryRow>): seq<StorePerformanceRow>
  {
    Rollup(filtered, FinancialStoreName, StoreTotals)
  }

  function FinancialStoreName(r: FinancialSummaryRow): string { r.storeName }

  /** "Top 10 Stores by Sales". */
  function TopStoresBySales(filtered: seq<FinancialSummaryRow>): (top: seq<StorePerformanceRow>)
    ensures |top| <= TopStoreCount && Descending(top, StoreSales)
    ensures multiset(top) <= multiset(StorePerformance(filtered))
  {
    NLargest(StorePerformance(filtered), TopStoreCount, StoreSales)
  }

  /** "Top 10 Stores by Orders". */
  function TopStoresByOrders(filtered: seq<FinancialSummaryRow>): (top: seq<StorePerformanceRow>)
    ensures |top| <= TopStoreCount && Descending(top, StoreOrders)
    ensures multiset(top) <= multiset(StorePerformance(filtered))
  {
    NLargest(StorePerformance(filtered), TopStoreCount, StoreOrders)
  }

  /** The store performance table has one row per distinct store of the
      filtered summary, each with that store's sums, and the store sales and
      orders add up to the financial cards' totals. */
  lemma StorePerformanceSpec(filtered: seq<FinancialSummaryRow>)
    ensures |StorePerformance(filtered)| == |Elements(Column(filtered, FinancialStoreName))|
    ensures forall i, j :: 0 <= i < j < |StorePerformance(filtered)| ==>
      StorePerformance(filtered)[i].storeName != StorePerformance(filtered)[j].storeName
    ensures forall r :: r in filtered ==>
      exists i :: 0 <= i < |StorePerformance(filtered)| && StorePerformance(filtered)[i].storeName == r.storeName
    ensures forall i :: 0 <= i < |StorePerformance(filtered)| ==>
      var rows := RowsWithKey(filtered, FinancialStoreName, StorePerformance(filtered)[i].storeName);
      && rows != []
      && StorePerformance(filtered)[i].totalOrders == Sum(rows, TotalOrders)
      && StorePerformance(filtered)[i].subtotalSales == Sum(rows, SubtotalSales)
      && StorePerformance(filtered)[i].merchantNetTotal == Sum(rows, MerchantNetTotal)
      && StorePerformance(filtered)[i].commission == Sum(rows, Commission)
    ensures filtered != [] ==> Sum(StorePerformance(filtered), StoreSales) == FinancialCardsOf(filtered).value.totalSales
    ensures filtered != [] ==> Sum(StorePerformance(filtered), StoreOrders) == FinancialCardsOf(filtered).value.totalOrders
  {
    var gs := GroupBy(filtered, FinancialStoreName);
    var perf := StorePerformance(filtered);
    RollupShape(filtered, FinancialStoreName, StoreTotals, StoreName);
    GroupByPartition(filtered, FinancialStoreName, SubtotalSales);
    GroupByPartition(filtered, FinancialStoreName, TotalOrders);
    SumOfAggregated(gs, perf, StoreSales, SubtotalSales);
    SumOfAggregated(gs, perf, StoreOrders, TotalOrders);
  }

  /** Both top-ten tables hold min(10, number of stores) rows of the store
      performance table, sorted by their column, largest first, and no store
      left out beats one kept. */
  lemma TopStoresSpec(filtered: seq<FinancialSummaryRow>)
    ensures |TopStoresBySales(filtered)| == |TopStoresByOrders(filtered)|
      == Min(TopStoreCount, |Elements(Column(filtered, FinancialStoreName))|)
    ensures Descending(TopStoresBySales(filtered), StoreSales)
    ensures Descending(TopStoresByOrders(filtered), StoreOrders)
    ensures multiset(TopStoresBySales(filtered)) <= multiset(StorePerformance(filtered))
    ensures multiset(TopStoresByOrders(filtered)) <= multiset(StorePerformance(filtered))
    ensures forall x: StorePerformanceRow, y: StorePerformanceRow ::
      x in TopStoresBySales(filtered) && y in multiset(StorePerformance(filtered)) - multiset(TopStoresBySales(filtered)) ==>
        y.subtotalSales <= x.subtotalSales
    ensures forall x: StorePerformanceRow, y: StorePerformanceRow ::
      x in TopStoresByOrders(filtered) && y in multiset(StorePerformance(filtered)) - multiset(TopStoresByOrders(filtered)) ==>
        y.totalOrders <= x.totalOrders
  {
    var perf := StorePerformance(filtered);
    StorePerformanceSpec(filtered);
    var bySales, byOrders := TopStoresBySales(filtered), TopStoresByOrders(filtered);
    forall x: StorePerformanceRow, y: StorePerformanceRow | x in bySales && y in multiset(perf) - multiset(bySales)
      ensures y.subtotalSales <= x.subtotalSales
    {
      assert StoreSales(y) <= StoreSales(x);
    }
    forall x: StorePerformanceRow, y: StorePerformanceRow | x in byOrders && y in multiset(perf) - multiset(byOrders)
      ensures y.totalOrders <= x.totalOrders
    {
      assert StoreOrders(y) <= StoreOrders(x);
    }
  }

  // ---------------------------------------------------------------- product rankings

  const TopItemCount: nat := 15

  function QuantitySold(r: ProductMixRow): real { r.quantitySold as real }
  function ItemSales(r: ProductMixRow): real { r.itemSales }

  /** "Top 15 Items by Quantity Sold", over the whole product mix. */
  function TopItemsByQuantity(products: seq<ProductMixRow>): (top: seq<ProductMixRow>)
    ensures |top| == Min(TopItemCount, |products|)
    ensures Descending(top, QuantitySold)
    ensures multiset(top) <= multiset(products)
    ensures forall x: ProductMixRow, y: ProductMixRow :: x in top && y in multiset(products) - multiset(top) ==>
      y.quantitySold <= x.quantitySold
  {
    var top := NLargest(products, TopItemCount, QuantitySold);
    forall x: ProductMixRow, y: ProductMixRow | x in top && y in multiset(products) - multiset(top)
      ensures y.quantitySold <= x.quantitySold
    {
      assert QuantitySold(y) <= QuantitySold(x);
    }
    top
  }

  /** "Top 15 Items by Revenue", over the whole product mix. */
  function TopItemsByRevenue(products: seq<ProductMixRow>): (top: seq<ProductMixRow>)
    ensures |top| == Min(TopItemCount, |products|)
    ensures Descending(top, ItemSales)
    ensures multiset(top) <= multiset(products)
    ensures forall x: ProductMixRow, y: ProductMixRow :: x in top && y in multiset(products) - multiset(top) ==>
      y.itemSales <= x.itemSales
  {
    var top := NLargest(products, TopItemCount, ItemSales);
    forall x: ProductMixRow, y: ProductMixRow | x in top && y in multiset(products) - multiset(top)
      ensures y.itemSales <= x.itemSales
    {
      assert ItemSales(y) <= ItemSales(x);
    }
    top
  }
}
